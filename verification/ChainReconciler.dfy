/** The agent chain controller, working step by step on its copy of the status and on
    the live children; proved to compute `ChainSpec.Reconcile`. */
module ChainReconciler {
  import opened Strings
  import opened AgentRuns
  import opened ChainTypes
  import opened ChainCadence
  import opened ChainSpec
  import opened ChainEffects

  // ----- scans over the children -----

  method ListUnfinished(runs: map<Name, Child>, owner: string) returns (out: seq<Name>)
    ensures |out| == |UnfinishedRuns(runs, owner)|
    ensures forall n :: n in out <==> n in UnfinishedRuns(runs, owner)
  {
    out := [];
    var rest := runs.Keys;
    ghost var held := UnfinishedRuns(runs, owner);
    ghost var done: set<Name> := {};
    while rest != {}
      invariant rest <= runs.Keys && done !! rest
      invariant forall n :: n in done ==> n in held
      invariant forall n :: n in held ==> n in done || n in rest
      invariant |out| == |done|
      invariant forall n :: n in out <==> n in done
      decreases rest
    {
      var n :| n in rest;
      rest := rest - {n};
      if Holding(runs[n], owner) {
        out := out + [n];
        done := done + {n};
      }
    }
    assert done == held;
  }

  method CountInstances(runs: map<Name, Child>, first: string, now: int) returns (count: nat)
    ensures count == |InstancesToday(runs, first, now)|
  {
    var found: set<Instance> := {};
    var day := now / DAY * DAY;
    var rest := runs.Keys;
    while rest != {}
      invariant rest <= runs.Keys
      invariant forall i :: i in found ==> i in InstancesToday(runs, first, now)
      invariant forall n :: n in runs && n !in rest && runs[n].step == first && day <= runs[n].createdAt < day + DAY ==>
        runs[n].instance in found
      decreases rest
    {
      var n :| n in rest;
      rest := rest - {n};
      if runs[n].step == first && day <= runs[n].createdAt && runs[n].createdAt < day + DAY {
        found := found + {runs[n].instance};
      }
    }
    assert found == InstancesToday(runs, first, now);
    return |found|;
  }

  method FindCollision(runs: map<Name, Child>, instance: Instance, generation: int, digest: Workflow) returns (found: bool)
    ensures found <==> Collides(runs, instance, generation, digest)
  {
    var rest := runs.Keys;
    while rest != {}
      invariant rest <= runs.Keys
      invariant forall n :: n in runs && n !in rest && runs[n].instance == instance ==>
        runs[n].generation == generation && runs[n].digest == digest
      decreases rest
    {
      var n :| n in rest;
      rest := rest - {n};
      if runs[n].instance == instance && (runs[n].generation != generation || runs[n].digest != digest) {
        return true;
      }
    }
    return false;
  }

  method GetRun(c: Chain, a: Active, step: string, ref: Option<Name>, uid: string, runs: map<Name, Child>)
    returns (r: Option<Child>)
    ensures r == RunByRef(c, a, step, ref, uid, runs)
  {
    if ref.None? || ref.value !in runs {
      return None;
    }
    var run := runs[ref.value];
    if uid != "" && run.uid != uid {
      return None;
    }
    if run.owner != c.uid || run.generation != a.generation || a.digest != Some(run.digest)
       || run.instance != a.instance || run.step != step {
      return None;
    }
    var w := c.spec.workflow;
    var expected := ResolveApplication(w);
    var actual := ResolveApplication(run.digest);
    if expected.None? || actual != expected || (w.dynamic != "" && run.digest.dynamic != w.dynamic)
       || (w.repository != "" && run.digest.repository != w.repository) {
      return None;
    }
    return Some(run);
  }

  method CollectPriors(c: Chain, a: Active, records: seq<StepRun>, runs: map<Name, Child>)
    returns (prior: Option<map<string, Child>>)
    ensures prior == Priors(c, a, records, runs)
  {
    var found: map<string, Child> := map[];
    for i := 0 to |records|
      invariant Priors(c, a, records[..i], runs) == Some(found)
    {
      assert records[..i + 1][..i] == records[..i];
      if records[i].instance == a.instance {
        var run := GetRun(c, a, records[i].step, Some(records[i].name), records[i].uid, runs);
        if run.None? {
          PriorsMissing(c, a, records, runs, i + 1);
          return None;
        }
        found := found[records[i].step := run.value];
      }
    }
    assert records[..|records|] == records;
    return Some(found);
  }

  /** One missing ancestor is enough. */
  lemma {:induction false} PriorsMissing(c: Chain, a: Active, records: seq<StepRun>, runs: map<Name, Child>, i: nat)
    requires i <= |records| && Priors(c, a, records[..i], runs).None?
    ensures Priors(c, a, records, runs).None?
    decreases |records|
  {
    if i == |records| {
      assert records[..i] == records;
    } else {
      var shorter := records[..|records| - 1];
      assert shorter[..i] == records[..i];
      PriorsMissing(c, a, shorter, runs, i);
    }
  }

  datatype Verdict = Skip | PatchFinalizer(install: bool) | Error | PatchStatus

  class Reconciler {
    var runs: map<Name, Child>
    var status: Status

    constructor (runs: map<Name, Child>)
      ensures this.runs == runs
    {
      this.runs := runs;
      status := EMPTY_STATUS;
    }

    /** The verdict together with what it leaves behind is the outcome `o`. */
    ghost predicate Yields(verdict: Verdict, before: map<Name, Child>, o: Outcome)
      reads this
    {
      match o
      case Nothing => verdict == Skip && runs == before
      case Fail => verdict == Error && runs == before
      case Finalize(install) => verdict == PatchFinalizer(install) && runs == before
      case Write(s, runs') => verdict == PatchStatus && status == s && runs == runs'
    }

    method Create(p: Plan, uid: string, now: int) returns (r: Option<Child>)
      modifies this
      ensures r == CreateChild(p, old(runs), uid, now)
      ensures status == old(status)
      ensures runs == if r.Some? then old(runs)[PlannedName(p) := r.value] else old(runs)
    {
      if p.step.application.Some? && Trim(p.step.application.value) != p.application {
        return None;
      }
      var name := PlannedName(p);
      var expected := Planned(p, uid, now);
      if name !in runs {
        runs := runs[name := expected];
        return Some(expected);
      }
      if !SameChild(runs[name], expected) {
        return None;
      }
      assert runs[name := runs[name]] == runs;
      return Some(runs[name]);
    }

    method ClearActive(phase: ChainPhase)
      requires status.active.Some?
      modifies this`status
      ensures status == Cleared(old(status), phase)
    {
      status := status.(lastInstance := Some(status.active.value.instance));
      status := status.(active := None, cancelRequested := None);
      status := status.(phase := phase);
    }

    method AdvanceTo(
      c: Chain, k: nat, current: Child, prior: map<string, Child>, app: string, uid: string, now: int)
      returns (verdict: Verdict)
      requires status.active.Some? && status.active.value.digest.Some? && k + 1 < |c.spec.workflow.steps|
      modifies this
      ensures Yields(verdict, old(runs), Advance(c, old(status), k, current, prior, app, old(runs), uid, now))
    {
      var a := status.active.value;
      var step := c.spec.workflow.steps[k + 1];
      var priors := prior[c.spec.workflow.steps[k].name := current];
      var p := Plan(
        c.uid, app, a.instance, a.generation, a.digest.value, step, Some(priors), Some(FinishedAt(current)));
      var run := Create(p, uid, now);
      if run.None? {
        return Error;
      }
      var name := PlannedName(p);
      status := status.(phase := Running, active := Some(a.(step := step.name, ref := Some(name), uid := run.value.uid)));
      var records := UpsertStepRun(status.stepRuns, RecordOf(a, step.name, name, run.value));
      status := status.(stepRuns := records);
      return PatchStatus;
    }

    method FollowRun(c: Chain, k: nat, current: Child, app: string, uid: string, now: int) returns (verdict: Verdict)
      requires status.active.Some? && status.active.value.digest.Some? && k < |c.spec.workflow.steps|
      modifies this
      ensures Yields(verdict, old(runs), Follow(c, old(status), k, current, app, old(runs), uid, now))
    {
      var steps := c.spec.workflow.steps;
      if !Terminal(current.phase) {
        status := status.(phase := Running);
        return PatchStatus;
      }
      var deadline := BackedOff(c.spec.backoff, status.nextStartAt, current, now);
      if current.phase == NeedsHuman {
        ClearActive(WaitingHuman);
        status := status.(nextStartAt := deadline);
        return PatchStatus;
      }
      if k + 1 >= |steps| {
        var complete := MatchCompletion(c.spec.workflow.completion, current);
        ClearActive(Idle);
        if !complete {
          status := status.(nextStartAt := deadline);
        }
        return PatchStatus;
      }
      var gate := MatchWhen(steps[k + 1].when, steps[k].name, current);
      if !gate {
        ClearActive(Idle);
        status := status.(nextStartAt := deadline);
        return PatchStatus;
      }
      var prior := CollectPriors(c, status.active.value, status.stepRuns, runs);
      if prior.None? {
        status := status.(phase := Blocked);
        return PatchStatus;
      }
      verdict := AdvanceTo(c, k, current, prior.value, app, uid, now);
    }

    method DriveActive(c: Chain, app: string, uid: string, now: int) returns (verdict: Verdict)
      requires status.active.Some?
      modifies this
      ensures Yields(verdict, old(runs), ReconcileActive(c, old(status), app, old(runs), uid, now))
    {
      var a := status.active.value;
      if a.generation == 0 || a.digest.None? || a.digest.value != c.spec.workflow {
        status := status.(phase := Blocked);
        return PatchStatus;
      }
      var k := StepIndex(c.spec.workflow.steps, a.step);
      if k < 0 {
        status := status.(phase := Blocked);
        return PatchStatus;
      }
      var current := GetRun(c, a, a.step, a.ref, a.uid, runs);
      if current.None? {
        status := status.(phase := Blocked);
        return PatchStatus;
      }
      var records := UpsertStepRun(status.stepRuns, RecordOf(a, a.step, a.ref.value, current.value));
      status := status.(stepRuns := records);
      verdict := FollowRun(c, k, current.value, app, uid, now);
    }

    method DriveCancellation(c: Chain) returns (verdict: Verdict)
      requires status.active.Some?
      modifies this
      ensures Yields(verdict, old(runs), CancelActive(c, old(status), old(runs)))
    {
      var a := status.active.value;
      var current := GetRun(c, a, a.step, a.ref, a.uid, runs);
      if current.None? {
        status := status.(phase := Blocked);
      } else if !Terminal(current.value.phase) {
        status := status.(phase := Cancelling);
      } else {
        ClearActive(Idle);
      }
      return PatchStatus;
    }

    method LaunchInstance(c: Chain, app: string, token: Option<string>, due: int, uid: string, now: int)
      returns (verdict: Verdict)
      requires c.spec.workflow.steps != []
      modifies this
      ensures Yields(verdict, old(runs), Launch(c, old(status), app, token, due, old(runs), uid, now))
    {
      var instance := if token.Some? then Manual(token.value) else Interval(due);
      var collision := FindCollision(runs, instance, c.generation, c.spec.workflow);
      if collision {
        status := status.(phase := Blocked);
        return PatchStatus;
      }
      var step := c.spec.workflow.steps[0];
      var p := Plan(
        c.uid, app, instance, c.generation, c.spec.workflow, step, None, if token.Some? then None else Some(due));
      var run := Create(p, uid, now);
      if run.None? {
        return Error;
      }
      var name := PlannedName(p);
      var a := Active(instance, step.name, Some(name), run.value.uid, c.generation, Some(c.spec.workflow));
      status := status.(
        phase := Running, active := Some(a), lastInstance := Some(instance),
        stepRuns := [RecordOf(a, step.name, name, run.value)]);
      if token.Some? {
        status := status.(lastStartToken := token.value);
      }
      if c.spec.interval > 0 {
        var base := if token.Some? then now else due;
        status := status.(nextStartAt := Some(base + c.spec.interval));
      } else if token.None? {
        status := status.(nextStartAt := None);
      }
      return PatchStatus;
    }

    method StartInstance(c: Chain, app: string, uid: string, now: int) returns (verdict: Verdict)
      requires c.spec.workflow.steps != []
      modifies this
      ensures Yields(verdict, old(runs), Start(c, old(status), app, old(runs), uid, now))
    {
      var token := StartToken(c, status);
      var next := NextStart(c.spec, c.createdAt, status.nextStartAt, now);
      if next.Some? {
        status := status.(nextStartAt := next);
      }
      var start := token.Some? || (next.Some? && next.value <= now);
      if !start {
        status := status.(phase := Idle);
        return PatchStatus;
      }
      if token.None? {
        var today := CountInstances(runs, c.spec.workflow.steps[0].name, now);
        if c.spec.maxPerDay > 0 && today >= c.spec.maxPerDay {
          status := status.(phase := Idle);
          return PatchStatus;
        }
        var until := BackoffUntil(c.spec.backoff, status, runs, now);
        if until.Some? {
          status := status.(phase := Idle, nextStartAt := until);
          return PatchStatus;
        }
      }
      var due := DueAt(c.spec, c.createdAt, token.Some?, next, now);
      verdict := LaunchInstance(c, app, token, due, uid, now);
    }

    method DriveChain(c: Chain, app: string, uid: string, now: int) returns (verdict: Verdict)
      requires c.spec.workflow.steps != []
      modifies this
      ensures Yields(verdict, old(runs), Drive(c, old(status), app, old(runs), uid, now))
    {
      if c.cancel != NoCancel && c.cancel != status.lastCancelToken {
        if status.active.Some? && (c.cancel == Cancel(status.active.value.instance) || c.cancel == CancelAll) {
          status := status.(
            cancelRequested := Some(status.active.value.instance), phase := Cancelling, lastCancelToken := c.cancel);
          return PatchStatus;
        }
        status := status.(lastCancelToken := c.cancel);
      }
      if status.active.Some? && status.cancelRequested == Some(status.active.value.instance) {
        verdict := DriveCancellation(c);
      } else if status.active.Some? {
        verdict := DriveActive(c, app, uid, now);
      } else {
        verdict := StartInstance(c, app, uid, now);
      }
    }

    method ResumeChain(c: Chain, app: string, uid: string, now: int) returns (verdict: Verdict)
      requires c.spec.workflow.steps != []
      modifies this
      ensures Yields(verdict, old(runs), Resume(c, old(status), app, old(runs), uid, now))
    {
      if status.active.None? {
        var held := ListUnfinished(runs, c.uid);
        if |held| > 1 {
          status := status.(phase := Blocked);
          return PatchStatus;
        }
        if |held| == 1 {
          var name := held[0];
          assert name in held;
          var run := runs[name];
          Singleton(UnfinishedRuns(runs, c.uid), name);
          var application := ResolveApplication(run.digest);
          if run.generation <= 0 || Trim(run.step) == "" || application.None? {
            status := status.(phase := Blocked);
            return PatchStatus;
          }
          status := Recovered(c, status, name, run, now);
          return PatchStatus;
        }
      }
      verdict := DriveChain(c, app, uid, now);
    }

    method ReconcileChain(c: Chain, paused: bool, uid: string, now: int) returns (verdict: Verdict)
      modifies this
      ensures Yields(verdict, old(runs), Reconcile(c, paused, old(runs), uid, now))
    {
      status := c.status;
      if c.deleting {
        if !c.finalizer {
          return Skip;
        }
        var held := ListUnfinished(runs, c.uid);
        if |held| > 0 {
          assert held[0] in UnfinishedRuns(runs, c.uid);
          return Skip;
        }
        return PatchFinalizer(false);
      }
      if !c.finalizer {
        return PatchFinalizer(true);
      }
      var valid := Validate(c.spec);
      if !valid {
        status := status.(phase := Blocked, nextStartAt := None);
        return PatchStatus;
      }
      if c.spec.suspend {
        status := status.(phase := Suspended);
        return PatchStatus;
      }
      var application := ResolveApplication(c.spec.workflow);
      if application.None? {
        status := status.(phase := Blocked, nextStartAt := None);
        return PatchStatus;
      }
      if paused {
        status := status.(phase := Suspended);
        return PatchStatus;
      }
      verdict := ResumeChain(c, application.value, uid, now);
    }
  }
}
