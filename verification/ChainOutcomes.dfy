/** What one reconcile of a chain decides, told from the chain and the children it read:
    when it holds back, starts, advances, releases, cancels or recovers, and with what
    status and child. */
module ChainOutcomes {
  import opened Strings
  import opened AgentRuns
  import opened ChainTypes
  import opened ChainCadence
  import opened ChainSpec

  /** Nothing holds the reconcile back. */
  ghost predicate Driven(c: Chain, paused: bool) {
    !c.deleting && c.finalizer && ValidSpec(c.spec) && !c.spec.suspend && Application(c.spec.workflow).Some? && !paused
  }

  // ----- holding back -----

  /** A suspended chain, or one of a paused application, keeps its children, its schedule
      and everything else in its status but the phase. */
  lemma {:induction false} SuspendedKeeps(c: Chain, paused: bool, runs: map<Name, Child>, uid: string, now: int)
    requires !c.deleting && c.finalizer && ValidSpec(c.spec)
    requires c.spec.suspend || (paused && Application(c.spec.workflow).Some?)
    ensures Reconcile(c, paused, runs, uid, now) == Write(c.status.(phase := Suspended), runs)
  {
  }

  /** The finalizer is removed exactly from a chain being deleted whose children have all
      finished, and installed exactly on one that lacks it and is not being deleted. */
  lemma {:induction false} FinalizesExactly(c: Chain, paused: bool, runs: map<Name, Child>, uid: string, now: int)
    ensures var o := Reconcile(c, paused, runs, uid, now);
      && (o == Finalize(false) <==>
            c.deleting && c.finalizer && forall n :: n in runs && runs[n].owner == c.uid ==> Terminal(runs[n].phase))
      && (o == Finalize(true) <==> !c.deleting && !c.finalizer)
      && (c.deleting && o != Finalize(false) ==> o == Nothing)
  {
    var held := UnfinishedRuns(runs, c.uid);
    if n :| n in runs && runs[n].owner == c.uid && !Terminal(runs[n].phase) {
      assert n in held;
    } else {
      assert held == {};
    }
  }

  // ----- cancelling -----

  /** The request names the active instance and was not answered before. */
  predicate CancelAsked(c: Chain) {
    && c.status.active.Some? && c.cancel != c.status.lastCancelToken
    && (c.cancel == CancelAll || c.cancel == Cancel(c.status.active.value.instance))
  }

  /** The status after other requests have been noted. */
  function Noted(c: Chain): Status {
    if c.cancel != NoCancel then c.status.(lastCancelToken := c.cancel) else c.status
  }

  lemma {:induction false} CancelRecorded(c: Chain, paused: bool, runs: map<Name, Child>, uid: string, now: int)
    requires Driven(c, paused) && CancelAsked(c)
    ensures Reconcile(c, paused, runs, uid, now) ==
      Write(c.status.(phase := Cancelling, cancelRequested := Some(c.status.active.value.instance), lastCancelToken := c.cancel), runs)
  {
  }

  /** The child the status points to, if it is what the status says it is. */
  ghost predicate Current(c: Chain, run: Child) {
    && c.status.active.Some?
    && var a := c.status.active.value;
       && run.owner == c.uid && run.instance == a.instance && run.step == a.step && run.generation == a.generation
       && a.digest == Some(run.digest) && a.uid in {"", run.uid} && LabelsMatch(c.spec.workflow, run)
  }

  ghost predicate Found(c: Chain, runs: map<Name, Child>) {
    c.status.active.Some? && c.status.active.value.ref.Some? && c.status.active.value.ref.value in runs
    && Current(c, runs[c.status.active.value.ref.value])
  }

  function ActiveRun(c: Chain, runs: map<Name, Child>): Child
    requires c.status.active.Some? && c.status.active.value.ref.Some? && c.status.active.value.ref.value in runs
  {
    runs[c.status.active.value.ref.value]
  }

  ghost predicate CancelledNow(c: Chain) {
    c.status.active.Some? && !CancelAsked(c) && c.status.cancelRequested == Some(c.status.active.value.instance)
  }

  /** A cancelled instance waits for its child and is then released: without backoff,
      completion or successor. */
  lemma {:induction false} CancelledReleases(c: Chain, paused: bool, runs: map<Name, Child>, uid: string, now: int)
    requires Driven(c, paused) && CancelledNow(c)
    ensures var o := Reconcile(c, paused, runs, uid, now);
      && o.Write? && o.runs == runs
      && o.status ==
           if !Found(c, runs) then Noted(c).(phase := Blocked)
           else if !Terminal(ActiveRun(c, runs).phase) then Noted(c).(phase := Cancelling)
           else Noted(c).(
             phase := Idle, active := None, cancelRequested := None, lastInstance := Some(c.status.active.value.instance))
  {
  }

  // ----- the active instance -----

  /** The active instance may go on: it is not cancelled and was started from this workflow. */
  ghost predicate GoesOn(c: Chain) {
    && c.status.active.Some? && !CancelAsked(c) && !CancelledNow(c)
    && c.status.active.value.generation != 0 && c.status.active.value.digest == Some(c.spec.workflow)
  }

  ghost predicate Following(c: Chain, paused: bool, runs: map<Name, Child>) {
    && Driven(c, paused) && GoesOn(c) && Found(c, runs)
    && StepAt(c.spec.workflow.steps, Trim(c.status.active.value.step)) < |c.spec.workflow.steps|
  }

  /** An instance of another workflow, or without its step or child, is blocked as it is. */
  lemma {:induction false} StrangeBlocks(c: Chain, paused: bool, runs: map<Name, Child>, uid: string, now: int)
    requires Driven(c, paused) && c.status.active.Some? && !CancelAsked(c) && !CancelledNow(c)
    requires !Following(c, paused, runs)
    ensures Reconcile(c, paused, runs, uid, now) == Write(Noted(c).(phase := Blocked), runs)
  {
  }

  /** The record of the active child as it was read. */
  function Observed(c: Chain, runs: map<Name, Child>): StepRun
    requires c.status.active.Some? && c.status.active.value.ref.Some? && c.status.active.value.ref.value in runs
    requires c.status.active.value.digest.Some?
  {
    var a := c.status.active.value;
    StepRun(a.instance, a.step, a.ref.value, ActiveRun(c, runs).uid, ActiveRun(c, runs).phase, a.generation, a.digest.value)
  }

  ghost function Updated(c: Chain, runs: map<Name, Child>): Status
    requires c.status.active.Some? && c.status.active.value.ref.Some? && c.status.active.value.ref.value in runs
    requires c.status.active.value.digest.Some?
  {
    Noted(c).(stepRuns := Upsert(c.status.stepRuns, Observed(c, runs)))
  }

  lemma {:induction false} FollowUnfolds(c: Chain, paused: bool, runs: map<Name, Child>, uid: string, now: int)
    requires Following(c, paused, runs)
    ensures var k := StepAt(c.spec.workflow.steps, Trim(c.status.active.value.step));
      Reconcile(c, paused, runs, uid, now) ==
        Follow(c, Updated(c, runs), k, ActiveRun(c, runs), Application(c.spec.workflow).value, runs, uid, now)
  {
    ActiveUnfolds(c, paused, runs, uid, now);
    RunFound(c, runs);
  }

  lemma {:induction false} ActiveUnfolds(c: Chain, paused: bool, runs: map<Name, Child>, uid: string, now: int)
    requires Driven(c, paused) && c.status.active.Some? && !CancelAsked(c) && !CancelledNow(c)
    ensures Reconcile(c, paused, runs, uid, now) ==
      ReconcileActive(c, Noted(c), Application(c.spec.workflow).value, runs, uid, now)
  {
  }

  lemma RunFound(c: Chain, runs: map<Name, Child>)
    requires c.status.active.Some?
    ensures var a := c.status.active.value;
      RunByRef(c, a, a.step, a.ref, a.uid, runs) == if Found(c, runs) then Some(ActiveRun(c, runs)) else None
  {
  }

  /** The backoff the spec asks for after a child of this phase. */
  function Asked(spec: Spec, phase: RunPhase): int {
    if spec.backoff.None? then 0
    else if phase == Failed then spec.backoff.value.failed
    else if phase == NeedsHuman then spec.backoff.value.needsHuman
    else 0
  }

  /** The next start when an instance has stopped: not before the backoff is over, and
      otherwise as it was. */
  ghost predicate Postponed(spec: Spec, next: Option<int>, run: Child, now: int, next': Option<int>) {
    var until := (if run.completedAt.Some? then run.completedAt.value else run.createdAt) + Asked(spec, run.phase);
    if Asked(spec, run.phase) > 0 && until >= now && (next.Some? ==> next.value <= until) then next' == Some(until)
    else next' == next
  }

  lemma BackedOffExactly(spec: Spec, next: Option<int>, run: Child, now: int)
    ensures Postponed(spec, next, run, now, BackedOff(spec.backoff, next, run, now))
  {
  }

  /** While its child is unfinished an instance runs on; the child's phase is recorded. */
  lemma {:induction false} UnfinishedWaits(c: Chain, paused: bool, runs: map<Name, Child>, uid: string, now: int)
    requires Following(c, paused, runs) && !Terminal(ActiveRun(c, runs).phase)
    ensures Reconcile(c, paused, runs, uid, now) == Write(Updated(c, runs).(phase := Running), runs)
  {
    FollowUnfolds(c, paused, runs, uid, now);
  }

  predicate Among(actions: seq<string>, run: Child) {
    exists i :: 0 <= i < |actions| && EqualFold(Trim(actions[i]), if run.action.Some? then Trim(run.action.value) else "")
  }

  /** A gate is open exactly to the run of the step before it that ended in a phase it lists,
      or succeeded if it lists none, with a decision it lists, if it lists any. */
  lemma GateExactly(when: Option<When>, previous: string, run: Child)
    requires previous != ""
    ensures WhenMatches(when, previous, run) <==>
      && run.step == previous
      && (if when.None? || when.value.phases == [] then run.phase == Succeeded else run.phase in when.value.phases)
      && (when.None? || when.value.actions == [] || Among(when.value.actions, run))
  {
  }

  /** A workflow is complete exactly if its last run succeeded with a decision the chain
      lists, if it lists any. */
  lemma CompletionExactly(completion: seq<string>, run: Child)
    ensures CompletionMatches(completion, run) <==> run.phase == Succeeded && (completion == [] || Among(completion, run))
  {
  }

  /** The application of a workflow is the one that all references that are not blank name. */
  lemma {:induction false} ApplicationExactly(w: Workflow, app: string)
    ensures Application(w) == Some(app) <==> (exists ref :: Refers(w, ref)) && forall ref :: Refers(w, ref) ==> ref == app
  {
    var names := Applications(w);
    forall ref ensures Refers(w, ref) <==> ref in names {
      StepReferences(w.steps, ref);
    }
    if names != [] {
      assert Refers(w, names[0]);
      if forall ref :: Refers(w, ref) ==> ref == app {
        forall i | 0 <= i < |names| ensures names[i] == app {
          assert Refers(w, names[i]);
        }
      }
    }
  }

  /** A reference of the chain or of one of its steps, trimmed. */
  ghost predicate Refers(w: Workflow, ref: string) {
    || Mentions(w.application, ref)
    || exists i :: 0 <= i < |w.steps| && Mentions(w.steps[i].application, ref)
  }

  predicate Mentions(application: Option<string>, ref: string) {
    application.Some? && Trim(application.value) == ref && ref != ""
  }

  lemma {:induction false} StepReferences(steps: seq<StepSpec>, ref: string)
    ensures ref in StepApplications(steps) <==> exists i :: 0 <= i < |steps| && Mentions(steps[i].application, ref)
    decreases |steps|
  {
    if steps != [] {
      var (init, last) := (steps[..|steps| - 1], steps[|steps| - 1]);
      StepReferences(init, ref);
      assert steps == init + [last];
      assert ref in Named(last.application) <==> Mentions(last.application, ref);
    }
  }

  /** The gate of the step after the active one, if there is one, is open. */
  ghost predicate GateOpen(c: Chain, run: Child) {
    && c.status.active.Some?
    && var k := StepAt(c.spec.workflow.steps, Trim(c.status.active.value.step));
       && k + 1 < |c.spec.workflow.steps|
       && WhenMatches(c.spec.workflow.steps[k + 1].when, c.spec.workflow.steps[k].name, run)
  }

  predicate AtLastStep(c: Chain) {
    c.status.active.Some? && StepAt(c.spec.workflow.steps, Trim(c.status.active.value.step)) + 1 == |c.spec.workflow.steps|
  }

  /** A finished child that needs a human, or with no open gate behind it, releases its
      instance. The phase says whether a human is needed, and the next start is postponed
      by the backoff unless the last step completed the workflow. */
  lemma {:induction false} StoppedReleases(c: Chain, paused: bool, runs: map<Name, Child>, uid: string, now: int)
    requires Following(c, paused, runs) && Terminal(ActiveRun(c, runs).phase)
    requires ActiveRun(c, runs).phase == NeedsHuman || !GateOpen(c, ActiveRun(c, runs))
    ensures var o := Reconcile(c, paused, runs, uid, now);
      var run := ActiveRun(c, runs);
      && o.Write? && o.runs == runs
      && o.status == Updated(c, runs).(
           phase := if run.phase == NeedsHuman then WaitingHuman else Idle,
           active := None, cancelRequested := None, lastInstance := Some(c.status.active.value.instance),
           nextStartAt := o.status.nextStartAt)
      && if AtLastStep(c) && CompletionMatches(c.spec.workflow.completion, run) then o.status.nextStartAt == c.status.nextStartAt
         else Postponed(c.spec, c.status.nextStartAt, run, now, o.status.nextStartAt)
  {
    FollowUnfolds(c, paused, runs, uid, now);
    BackedOffExactly(c.spec, c.status.nextStartAt, ActiveRun(c, runs), now);
  }

  // ----- the next step -----

  /** Every recorded run of the active instance is still what its record says. */
  ghost predicate RecordHolds(c: Chain, r: StepRun, runs: map<Name, Child>) {
    c.status.active.Some? && r.instance == c.status.active.value.instance ==>
      && r.name in runs
      && var (run, a) := (runs[r.name], c.status.active.value);
         && run.owner == c.uid && run.instance == a.instance && run.step == r.step && run.generation == a.generation
         && a.digest == Some(run.digest) && r.uid in {"", run.uid} && LabelsMatch(c.spec.workflow, run)
  }

  ghost predicate RecordsHold(c: Chain, records: seq<StepRun>, runs: map<Name, Child>) {
    forall i :: 0 <= i < |records| ==> RecordHolds(c, records[i], runs)
  }

  /** A child of this chain, instance and step. */
  predicate ChildOf(run: Child, c: Chain, step: string) {
    c.status.active.Some? && run.owner == c.uid && run.instance == c.status.active.value.instance && run.step == step
  }

  ghost predicate RecordedStep(c: Chain, records: seq<StepRun>, step: string) {
    c.status.active.Some? && exists i :: 0 <= i < |records| && records[i].instance == c.status.active.value.instance && records[i].step == step
  }

  /** The collected runs are those of the recorded steps. */
  ghost predicate Collected(c: Chain, records: seq<StepRun>, runs: map<Name, Child>, prior: map<string, Child>) {
    && (forall step :: step in prior <==> RecordedStep(c, records, step))
    && (forall step :: step in prior ==> ChildOf(prior[step], c, step) && exists n :: n in runs && runs[n] == prior[step])
  }

  lemma {:induction false} PriorsCollected(c: Chain, records: seq<StepRun>, runs: map<Name, Child>)
    requires c.status.active.Some?
    ensures var prior := Priors(c, c.status.active.value, records, runs);
      && (prior.Some? <==> RecordsHold(c, records, runs))
      && (prior.Some? ==> Collected(c, records, runs, prior.value))
    decreases |records|
  {
    if records != [] {
      var n := |records| - 1;
      var (init, last) := (records[..n], records[n]);
      PriorsCollected(c, init, runs);
      assert records == init + [last];
      HoldOneMore(c, init, last, runs);
      var (before, prior) := (Priors(c, c.status.active.value, init, runs), Priors(c, c.status.active.value, records, runs));
      if prior.Some? {
        CollectOneMore(c, init, last, runs, before.value);
      }
    }
  }

  lemma HoldOneMore(c: Chain, init: seq<StepRun>, last: StepRun, runs: map<Name, Child>)
    ensures RecordsHold(c, init + [last], runs) <==> RecordsHold(c, init, runs) && RecordHolds(c, last, runs)
  {
    assert (init + [last])[|init|] == last;
    assert forall i :: 0 <= i < |init| ==> (init + [last])[i] == init[i];
  }

  lemma {:induction false} RecordedOneMore(c: Chain, init: seq<StepRun>, last: StepRun, step: string)
    requires c.status.active.Some?
    ensures RecordedStep(c, init + [last], step) <==>
      RecordedStep(c, init, step) || (last.instance == c.status.active.value.instance && last.step == step)
  {
    var records := init + [last];
    assert records[|init|] == last;
    assert forall i :: 0 <= i < |init| ==> records[i] == init[i];
  }

  lemma {:induction false} CollectOneMore(c: Chain, init: seq<StepRun>, last: StepRun, runs: map<Name, Child>, before: map<string, Child>)
    requires c.status.active.Some? && Collected(c, init, runs, before) && RecordHolds(c, last, runs)
    ensures Collected(c, init + [last], runs,
      if last.instance == c.status.active.value.instance then before[last.step := runs[last.name]] else before)
  {
    var prior := if last.instance == c.status.active.value.instance then before[last.step := runs[last.name]] else before;
    forall step ensures step in prior <==> RecordedStep(c, init + [last], step) {
      RecordedOneMore(c, init, last, step);
    }
  }

  /** The steps whose results a step receives: those it lists, or the one before it. */
  function Sources(step: StepSpec): seq<string> {
    match step.handoff
    case None => []
    case Some(names) =>
      if names == [] && step.when.Some? && Trim(step.when.value.previous) != "" then [step.when.value.previous] else names
  }

  /** What a step receives: from each source the result of that step in this instance, if
      it is recorded, and never that of another chain, instance or step. */
  ghost predicate HandsOver(
    c: Chain, runs: map<Name, Child>, records: seq<StepRun>, previous: string, run: Child, step: StepSpec, handoff: seq<Option<string>>)
  {
    && |handoff| == |Sources(step)|
    && forall i :: 0 <= i < |handoff| ==>
         if Sources(step)[i] == previous then handoff[i] == Some(run.output)
         else if RecordedStep(c, records, Sources(step)[i]) then
           exists n :: n in runs && ChildOf(runs[n], c, Sources(step)[i]) && handoff[i] == Some(runs[n].output)
         else handoff[i] == None
  }

  lemma {:induction false} HandoffExactly(
    c: Chain, runs: map<Name, Child>, records: seq<StepRun>, previous: string, run: Child, step: StepSpec, prior: map<string, Child>)
    requires Collected(c, records, runs, prior)
    ensures HandsOver(c, runs, records, previous, run, step, Handoff(step, Some(prior[previous := run])))
  {
    var handoff := Handoff(step, Some(prior[previous := run]));
    forall i | 0 <= i < |handoff| && Sources(step)[i] != previous && RecordedStep(c, records, Sources(step)[i])
      ensures exists n :: n in runs && ChildOf(runs[n], c, Sources(step)[i]) && handoff[i] == Some(runs[n].output)
    {
      var name := Sources(step)[i];
      assert name in prior;
      var n :| n in runs && runs[n] == prior[name];
    }
  }

  /** The child may run in the application of the chain. */
  predicate Admits(step: StepSpec, app: string) {
    step.application.Some? ==> Trim(step.application.value) == app
  }

  /** The child that a plan calls for, as far as it is fixed. */
  predicate Planning(run: Child, owner: string, instance: Instance, generation: int, digest: Workflow, step: StepSpec, content: Content) {
    && run.owner == owner && run.instance == instance && run.step == step.name
    && run.generation == generation && run.digest == digest && run.content == content
  }

  /** A child is created if its name is free, and taken over if it is the planned one. */
  ghost predicate Provides(
    runs: map<Name, Child>, runs': map<Name, Child>, owner: string, instance: Instance, generation: int, digest: Workflow,
    step: StepSpec, content: Content, uid: string, now: int)
  {
    var name := Name(instance, step.name);
    && name in runs' && Planning(runs'[name], owner, instance, generation, digest, step, content)
    && if name in runs then runs' == runs
       else
         && runs' == runs[name := runs'[name]]
         && runs'[name].uid == uid && runs'[name].createdAt == now && runs'[name].phase == Unfinished
         && runs'[name].completedAt == None && runs'[name].action == None && runs'[name].output == ""
  }

  /** The plan of a child fails exactly if the step belongs to another application or the
      name of the child is taken by another one. */
  ghost predicate Fails(
    runs: map<Name, Child>, owner: string, instance: Instance, generation: int, digest: Workflow, step: StepSpec, content: Content)
  {
    || !Admits(step, content.application)
    || (Name(instance, step.name) in runs
        && !Planning(runs[Name(instance, step.name)], owner, instance, generation, digest, step, content))
  }

  lemma {:induction false} PlanProvides(p: Plan, runs: map<Name, Child>, uid: string, now: int)
    ensures var content := Content(p.step.template, p.application, Handoff(p.step, p.prior), p.detectedAt);
      var run := CreateChild(p, runs, uid, now);
      && (run.None? <==> Fails(runs, p.owner, p.instance, p.generation, p.digest, p.step, content))
      && (run.Some? ==>
            Provides(
              runs, runs[Name(p.instance, p.step.name) := run.value], p.owner, p.instance, p.generation, p.digest,
              p.step, content, uid, now))
  {
    var name := Name(p.instance, p.step.name);
    var run := CreateChild(p, runs, uid, now);
    if run.Some? && name in runs {
      assert runs[name := run.value] == runs;
    }
  }

  /** The active instance goes on with the child of `step`. */
  ghost predicate Continues(c: Chain, runs: map<Name, Child>, s: Status, step: StepSpec, content: Content, o: Outcome, uid: string, now: int)
  {
    && c.status.active.Some?
    && var a := c.status.active.value;
       var name := Name(a.instance, step.name);
       if Fails(runs, c.uid, a.instance, a.generation, c.spec.workflow, step, content) then o.Fail?
       else
         && o.Write? && Provides(runs, o.runs, c.uid, a.instance, a.generation, c.spec.workflow, step, content, uid, now)
         && var run := o.runs[name];
            o.status == s.(
              phase := Running, active := Some(a.(step := step.name, ref := Some(name), uid := run.uid)),
              stepRuns := Upsert(s.stepRuns, StepRun(a.instance, step.name, name, run.uid, run.phase, a.generation, c.spec.workflow)))
  }

  function EndOf(run: Child): int {
    if run.completedAt.Some? then run.completedAt.value else run.createdAt
  }

  lemma {:induction false} AdvanceContinues(
    c: Chain, s: Status, k: nat, run: Child, prior: map<string, Child>, app: string, runs: map<Name, Child>, uid: string, now: int)
    requires s.active.Some? && s.active == c.status.active && s.active.value.digest == Some(c.spec.workflow)
    requires k + 1 < |c.spec.workflow.steps|
    ensures var step := c.spec.workflow.steps[k + 1];
      var handoff := Handoff(step, Some(prior[c.spec.workflow.steps[k].name := run]));
      Continues(
        c, runs, s, step, Content(step.template, app, handoff, Some(EndOf(run))),
        Advance(c, s, k, run, prior, app, runs, uid, now), uid, now)
  {
    var (a, step) := (s.active.value, c.spec.workflow.steps[k + 1]);
    PlanProvides(
      Plan(c.uid, app, a.instance, a.generation, c.spec.workflow, step,
        Some(prior[c.spec.workflow.steps[k].name := run]), Some(FinishedAt(run))),
      runs, uid, now);
  }

  /** A finished child behind an open gate is followed by the next step of its instance,
      under the same generation and workflow, with the results it is to receive. The
      reconcile is blocked if a recorded run is not what it was, and fails if the name of
      the child is taken by another. */
  lemma {:induction false} GateAdvances(c: Chain, paused: bool, runs: map<Name, Child>, uid: string, now: int)
    returns (handoff: seq<Option<string>>)
    requires Following(c, paused, runs) && Terminal(ActiveRun(c, runs).phase) && ActiveRun(c, runs).phase != NeedsHuman
    requires GateOpen(c, ActiveRun(c, runs))
    ensures var o := Reconcile(c, paused, runs, uid, now);
      var (run, s) := (ActiveRun(c, runs), Updated(c, runs));
      var k := StepAt(c.spec.workflow.steps, Trim(c.status.active.value.step));
      var (previous, step) := (c.spec.workflow.steps[k].name, c.spec.workflow.steps[k + 1]);
      if !RecordsHold(c, s.stepRuns, runs) then o == Write(s.(phase := Blocked), runs)
      else
        && HandsOver(c, runs, s.stepRuns, previous, run, step, handoff)
        && Continues(
             c, runs, s, step, Content(step.template, Application(c.spec.workflow).value, handoff, Some(EndOf(run))), o, uid, now)
  {
    FollowUnfolds(c, paused, runs, uid, now);
    var (run, s) := (ActiveRun(c, runs), Updated(c, runs));
    PriorsCollected(c, s.stepRuns, runs);
    var prior := Priors(c, c.status.active.value, s.stepRuns, runs);
    handoff := [];
    if prior.Some? {
      var k := StepAt(c.spec.workflow.steps, Trim(c.status.active.value.step));
      var (previous, step) := (c.spec.workflow.steps[k].name, c.spec.workflow.steps[k + 1]);
      handoff := Handoff(step, Some(prior.value[previous := run]));
      HandoffExactly(c, runs, s.stepRuns, previous, run, step, prior.value);
      AdvanceContinues(c, s, k, run, prior.value, Application(c.spec.workflow).value, runs, uid, now);
    }
  }

  /** A step that asks for results and lists none receives that of the step before it. */
  lemma {:induction false} DefaultHandoff(
    c: Chain, runs: map<Name, Child>, records: seq<StepRun>, k: nat, run: Child, handoff: seq<Option<string>>)
    requires ValidSpec(c.spec) && k + 1 < |c.spec.workflow.steps|
    requires var (previous, step) := (c.spec.workflow.steps[k].name, c.spec.workflow.steps[k + 1]);
      && HandsOver(c, runs, records, previous, run, step, handoff)
      && step.handoff == Some([]) && (step.when.Some? ==> Trim(step.when.value.previous) == step.when.value.previous)
    ensures handoff == [Some(run.output)]
  {
    assert ValidStep(c.spec.workflow.steps, k + 1);
  }

  // ----- starting -----

  /** Nothing is active and no child of the chain is unfinished. */
  ghost predicate AtRest(c: Chain, runs: map<Name, Child>) {
    c.status.active.None? && forall n :: n in runs && runs[n].owner == c.uid ==> Terminal(runs[n].phase)
  }

  /** The start token, if it is new. */
  predicate Requested(c: Chain) {
    Trim(c.startToken) !in {"", c.status.lastStartToken}
  }

  function Next(c: Chain, now: int): Option<int> {
    NextStart(c.spec, c.createdAt, c.status.nextStartAt, now)
  }

  /** A stored start is kept. Without one the schedule begins at the creation of the chain,
      after the initial delay, and is at the last of its deadlines that has come. */
  lemma {:induction false} ScheduleExactly(c: Chain, now: int) returns (k: int)
    ensures c.spec.interval <= 0 <==> Next(c, now).None?
    ensures c.spec.interval > 0 && c.status.nextStartAt.Some? ==> Next(c, now) == c.status.nextStartAt
    ensures c.spec.interval > 0 && c.status.nextStartAt.None? ==>
      var first := c.createdAt + (if c.spec.delay > 0 then c.spec.delay else 0);
      && k >= 0 && Next(c, now) == Some(Deadline(first, c.spec.interval, k))
      && (k > 0 ==> Deadline(first, c.spec.interval, k) <= now) && now < Deadline(first, c.spec.interval, k + 1)
  {
    k := 0;
    if c.spec.interval > 0 && c.status.nextStartAt.None? {
      var first := FirstStart(c.spec, c.createdAt);
      if first < now {
        k := (now - first) / c.spec.interval;
        DeadlineStep(first, c.spec.interval, k);
        assert now - first == k * c.spec.interval + (now - first) % c.spec.interval;
      } else {
        DeadlineStep(first, c.spec.interval, 0);
      }
    }
  }

  lemma DeadlineStep(base: int, interval: int, k: int)
    ensures Deadline(base, interval, k + 1) == Deadline(base, interval, k) + interval
    ensures Deadline(base, interval, 0) == base
  {
  }

  predicate IsDue(c: Chain, now: int) {
    Next(c, now).Some? && Next(c, now).value <= now
  }

  /** As many instances as the budget allows have a first child created on this day. */
  ghost predicate DayFull(c: Chain, runs: map<Name, Child>, now: int) {
    && c.spec.maxPerDay > 0 && c.spec.workflow.steps != []
    && exists started: set<Instance> :: |started| == c.spec.maxPerDay && AllStarted(started, c.spec.workflow.steps[0].name, runs, now)
  }

  ghost predicate AllStarted(started: set<Instance>, first: string, runs: map<Name, Child>, now: int) {
    forall i :: i in started ==> StartedOn(i, first, runs, now / 86400)
  }

  ghost predicate StartedOn(i: Instance, first: string, runs: map<Name, Child>, day: int) {
    exists n :: n in runs && runs[n].instance == i && runs[n].step == first && runs[n].createdAt / 86400 == day
  }

  lemma {:induction false} TodayExactly(i: Instance, first: string, runs: map<Name, Child>, now: int)
    ensures i in InstancesToday(runs, first, now) <==> StartedOn(i, first, runs, now / 86400)
  {
    forall n | n in runs
      ensures runs[n].createdAt / 86400 == now / 86400 <==> now / DAY * DAY <= runs[n].createdAt < now / DAY * DAY + DAY
    {
      SameDay(runs[n].createdAt, now);
    }
  }

  lemma SameDay(t: int, now: int)
    ensures t / 86400 == now / 86400 <==> now / DAY * DAY <= t < now / DAY * DAY + DAY
  {
  }

  /** A set with at least so many elements has a subset with exactly so many. */
  lemma {:induction false} SomeOf(all: set<Instance>, n: nat) returns (some: set<Instance>)
    requires n <= |all|
    ensures some <= all && |some| == n
  {
    if n == |all| {
      some := all;
    } else {
      var i :| i in all;
      some := SomeOf(all - {i}, n);
    }
  }

  lemma {:induction false} SubsetSize(some: set<Instance>, all: set<Instance>)
    requires some <= all
    ensures |some| <= |all|
  {
    assert all == some + (all - some);
  }

  lemma {:induction false} BudgetExactly(c: Chain, runs: map<Name, Child>, now: int)
    requires c.spec.workflow.steps != []
    ensures DayFull(c, runs, now) <==>
      c.spec.maxPerDay > 0 && |InstancesToday(runs, c.spec.workflow.steps[0].name, now)| >= c.spec.maxPerDay
  {
    var (first, max) := (c.spec.workflow.steps[0].name, c.spec.maxPerDay);
    var today := InstancesToday(runs, first, now);
    forall i ensures i in today <==> StartedOn(i, first, runs, now / 86400) {
      TodayExactly(i, first, runs, now);
    }
    if DayFull(c, runs, now) {
      var started: set<Instance> :| |started| == max && AllStarted(started, first, runs, now);
      SubsetSize(started, today);
    } else if max > 0 && |today| >= max {
      var started := SomeOf(today, max);
      assert AllStarted(started, first, runs, now);
    }
  }

  /** When the backoff after the last recorded child ends. */
  function BackoffEnd(c: Chain, runs: map<Name, Child>, now: int): int {
    if c.status.stepRuns == [] then now
    else
      var last := c.status.stepRuns[|c.status.stepRuns| - 1];
      (if last.name in runs then EndOf(runs[last.name]) else now) + Asked(c.spec, last.phase)
  }

  predicate BackingOff(c: Chain, runs: map<Name, Child>, now: int) {
    && c.status.stepRuns != [] && Asked(c.spec, c.status.stepRuns[|c.status.stepRuns| - 1].phase) > 0
    && BackoffEnd(c, runs, now) > now
  }

  /** An instance is wanted: asked for by a new token, whatever the schedule, or due with
      budget left and no backoff. */
  ghost predicate Wanted(c: Chain, runs: map<Name, Child>, now: int) {
    Requested(c) || (IsDue(c, now) && !DayFull(c, runs, now) && !BackingOff(c, runs, now))
  }

  /** The status with the schedule filled in. */
  function Planned(c: Chain, now: int): Status {
    Noted(c).(nextStartAt := if Next(c, now).Some? then Next(c, now) else c.status.nextStartAt)
  }

  lemma {:induction false} StartUnfolds(c: Chain, paused: bool, runs: map<Name, Child>, uid: string, now: int)
    requires Driven(c, paused) && AtRest(c, runs)
    ensures Reconcile(c, paused, runs, uid, now) == Start(c, Noted(c), Application(c.spec.workflow).value, runs, uid, now)
  {
    assert UnfinishedRuns(runs, c.uid) == {};
  }

  lemma {:induction false} BackoffExactly(c: Chain, runs: map<Name, Child>, now: int)
    requires IsDue(c, now)
    ensures BackoffUntil(c.spec.backoff, Planned(c, now), runs, now) ==
      if BackingOff(c, runs, now) then Some(BackoffEnd(c, runs, now)) else None
  {
  }

  /** An instance that is not wanted is not started. Its due time is kept, and moved to the
      end of the backoff if that is what it waits for. */
  lemma {:induction false} UnwantedRests(c: Chain, paused: bool, runs: map<Name, Child>, uid: string, now: int)
    requires Driven(c, paused) && AtRest(c, runs) && !Wanted(c, runs, now)
    ensures Reconcile(c, paused, runs, uid, now) == Write(
      Planned(c, now).(
        phase := Idle,
        nextStartAt :=
          if IsDue(c, now) && !DayFull(c, runs, now) then Some(BackoffEnd(c, runs, now)) else Planned(c, now).nextStartAt),
      runs)
  {
    StartUnfolds(c, paused, runs, uid, now);
    BudgetExactly(c, runs, now);
    if IsDue(c, now) {
      BackoffExactly(c, runs, now);
    }
  }

  /** The instance a wanted start would be. */
  function Due(c: Chain, now: int): Instance {
    if Requested(c) then Manual(Trim(c.startToken))
    else if Next(c, now).Some? then Interval(Next(c, now).value)
    else Interval(now)
  }

  /** Some run of this instance belongs to another generation or workflow. */
  ghost predicate Stale(c: Chain, runs: map<Name, Child>, instance: Instance) {
    exists n :: n in runs && runs[n].instance == instance && !(runs[n].generation == c.generation && runs[n].digest == c.spec.workflow)
  }

  /** The start of an instance with the child of the first step. */
  ghost predicate Launches(c: Chain, runs: map<Name, Child>, instance: Instance, content: Content, o: Outcome, uid: string, now: int)
    requires c.spec.workflow.steps != []
  {
    var step := c.spec.workflow.steps[0];
    var name := Name(instance, step.name);
    if Fails(runs, c.uid, instance, c.generation, c.spec.workflow, step, content) then o.Fail?
    else
      && o.Write? && Provides(runs, o.runs, c.uid, instance, c.generation, c.spec.workflow, step, content, uid, now)
      && var run := o.runs[name];
         o.status == Planned(c, now).(
           phase := Running, lastInstance := Some(instance),
           active := Some(Active(instance, step.name, Some(name), run.uid, c.generation, Some(c.spec.workflow))),
           stepRuns := [StepRun(instance, step.name, name, run.uid, run.phase, c.generation, c.spec.workflow)],
           lastStartToken := if instance.Manual? then instance.token else c.status.lastStartToken,
           nextStartAt :=
             if c.spec.interval > 0 then Some((if instance.Manual? then now else instance.dueAt) + c.spec.interval)
             else if instance.Manual? then c.status.nextStartAt
             else None)
  }

  lemma {:induction false} LaunchExactly(
    c: Chain, s: Status, app: string, token: Option<string>, due: int, runs: map<Name, Child>, uid: string, now: int)
    requires c.spec.workflow.steps != [] && s == Planned(c, now) && (c.spec.interval <= 0 ==> Next(c, now).None?)
    requires !Collides(runs, if token.Some? then Manual(token.value) else Interval(due), c.generation, c.spec.workflow)
    ensures var instance := if token.Some? then Manual(token.value) else Interval(due);
      Launches(
        c, runs, instance, Content(c.spec.workflow.steps[0].template, app, [], if token.Some? then None else Some(due)),
        Launch(c, s, app, token, due, runs, uid, now), uid, now)
  {
    var instance := if token.Some? then Manual(token.value) else Interval(due);
    PlanProvides(
      Plan(c.uid, app, instance, c.generation, c.spec.workflow, c.spec.workflow.steps[0], None,
        if token.Some? then None else Some(due)),
      runs, uid, now);
  }

  /** A wanted instance is started under the current generation and workflow, with the
      child of the first step. It is blocked if a run of it belongs to another generation
      or workflow, and fails if the name of the child is taken by another. */
  lemma {:induction false} WantedStarts(c: Chain, paused: bool, runs: map<Name, Child>, uid: string, now: int)
    requires Driven(c, paused) && AtRest(c, runs) && Wanted(c, runs, now)
    ensures var o := Reconcile(c, paused, runs, uid, now);
      var instance := Due(c, now);
      if Stale(c, runs, instance) then o == Write(Planned(c, now).(phase := Blocked), runs)
      else Launches(
        c, runs, instance,
        Content(
          c.spec.workflow.steps[0].template, Application(c.spec.workflow).value, [],
          if instance.Manual? then None else Some(instance.dueAt)),
        o, uid, now)
  {
    StartUnfolds(c, paused, runs, uid, now);
    BudgetExactly(c, runs, now);
    if IsDue(c, now) {
      BackoffExactly(c, runs, now);
    }
    var (instance, app) := (Due(c, now), Application(c.spec.workflow).value);
    var token := StartToken(c, Noted(c));
    var due := DueAt(c.spec, c.createdAt, token.Some?, Next(c, now), now);
    assert Stale(c, runs, instance) <==> Collides(runs, instance, c.generation, c.spec.workflow);
    if !Stale(c, runs, instance) {
      LaunchExactly(c, Planned(c, now), app, token, due, runs, uid, now);
    }
  }

  // ----- recovering -----

  /** The only unfinished child of the chain. */
  ghost predicate OnlyUnfinished(c: Chain, runs: map<Name, Child>, n: Name) {
    && n in runs && runs[n].owner == c.uid && !Terminal(runs[n].phase)
    && forall m :: m in runs && runs[m].owner == c.uid && !Terminal(runs[m].phase) ==> m == n
  }

  /** With nothing active, the only unfinished child becomes the active one again, under the
      generation and workflow it was created from, and the schedule moves to the first
      deadline after now that is counted from its instance. */
  lemma {:induction false} OrphanRecovers(c: Chain, paused: bool, runs: map<Name, Child>, uid: string, now: int, n: Name)
    requires Driven(c, paused) && c.status.active.None? && OnlyUnfinished(c, runs, n)
    ensures var o := Reconcile(c, paused, runs, uid, now);
      var run := runs[n];
      && o.Write? && o.runs == runs
      && if run.generation > 0 && Trim(run.step) != "" && Application(run.digest).Some? then
           var from := if run.instance.Interval? && run.content.detectedAt.Some? then run.content.detectedAt.value else run.createdAt;
           o.status == c.status.(
             phase := Running, lastInstance := Some(run.instance),
             active := Some(Active(run.instance, run.step, Some(n), run.uid, run.generation, Some(run.digest))),
             stepRuns := [StepRun(run.instance, run.step, n, run.uid, run.phase, run.generation, run.digest)],
             lastStartToken :=
               if run.instance.Manual? && run.instance.token != "" && run.instance.token == Trim(c.startToken)
               then run.instance.token else c.status.lastStartToken,
             nextStartAt := if c.spec.interval > 0 then Some(NextCadenceAfter(from, c.spec.interval, now)) else c.status.nextStartAt)
         else o.status == c.status.(phase := Blocked)
  {
    var held := UnfinishedRuns(runs, c.uid);
    assert held == {n};
  }

  /** Two unfinished children with nothing active block the chain. */
  lemma {:induction false} OrphansBlock(c: Chain, paused: bool, runs: map<Name, Child>, uid: string, now: int, m: Name, n: Name)
    requires Driven(c, paused) && c.status.active.None? && m != n && m in runs && n in runs
    requires runs[m].owner == c.uid && runs[n].owner == c.uid && !Terminal(runs[m].phase) && !Terminal(runs[n].phase)
    ensures Reconcile(c, paused, runs, uid, now) == Write(c.status.(phase := Blocked), runs)
  {
    var held := UnfinishedRuns(runs, c.uid);
    assert {m, n} <= held;
    assert held == {m, n} + (held - {m, n});
  }

  // ----- results after a recovery -----

  /** Only the active step is on record, as `OrphanRecovers` leaves it. */
  predicate JustRecovered(c: Chain) {
    && c.status.active.Some? && |c.status.stepRuns| == 1
    && c.status.stepRuns[0].instance == c.status.active.value.instance && c.status.stepRuns[0].step == c.status.active.value.step
  }

  lemma {:induction false} OneRecord(c: Chain, runs: map<Name, Child>, step: string)
    requires Found(c, runs) && c.status.active.value.digest.Some? && JustRecovered(c)
    ensures RecordedStep(c, Updated(c, runs).stepRuns, step) ==> step == c.status.active.value.step
  {
    var records := Updated(c, runs).stepRuns;
    if i :| 0 <= i < |records| && records[i].instance == c.status.active.value.instance && records[i].step == step {
      assert records[i] in records;
      UpsertMembers(c.status.stepRuns, Observed(c, runs), records[i]);
    }
  }

  /** A chain whose status was lost and recovered, on whatever step, gives the step after it
      none of the results it lists from before that step. */
  lemma {:induction false} RecoveryForgetsResults(c: Chain, paused: bool, runs: map<Name, Child>, uid: string, now: int)
    returns (handoff: seq<Option<string>>)
    requires Following(c, paused, runs) && JustRecovered(c) && RecordsHold(c, Updated(c, runs).stepRuns, runs)
    requires Terminal(ActiveRun(c, runs).phase) && ActiveRun(c, runs).phase != NeedsHuman && GateOpen(c, ActiveRun(c, runs))
    requires Reconcile(c, paused, runs, uid, now).Write?
    ensures var (a, steps, o) := (c.status.active.value, c.spec.workflow.steps, Reconcile(c, paused, runs, uid, now));
      var k := StepAt(steps, Trim(a.step));
      var name := Name(a.instance, steps[k + 1].name);
      && name in o.runs && o.runs[name].content.handoff == handoff && |handoff| == |Sources(steps[k + 1])|
      && forall i :: 0 <= i < |handoff| && Sources(steps[k + 1])[i] !in {a.step, steps[k].name} ==> handoff[i] == None
  {
    handoff := GateAdvances(c, paused, runs, uid, now);
    var (a, steps) := (c.status.active.value, c.spec.workflow.steps);
    var k := StepAt(steps, Trim(a.step));
    forall i | 0 <= i < |handoff| && Sources(steps[k + 1])[i] !in {a.step, steps[k].name} ensures handoff[i] == None {
      OneRecord(c, runs, Sources(steps[k + 1])[i]);
    }
  }
}
