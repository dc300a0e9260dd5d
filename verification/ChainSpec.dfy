/** One reconcile of an agent chain, as a function of the chain it read and of the
    child runs: at most one child is created and one status is written. */
module ChainSpec {
  import opened Strings
  import opened AgentRuns
  import opened ChainTypes
  import opened ChainCadence

  const DAY := 86400

  datatype Outcome =
    | Nothing
    | Finalize(install: bool)
    | Fail
    | Write(status: Status, runs: map<Name, Child>)

  // ----- children -----

  predicate Holding(run: Child, owner: string) {
    run.owner == owner && !Terminal(run.phase)
  }

  /** Children that hold the chain: the owned runs that are not terminal. */
  function UnfinishedRuns(runs: map<Name, Child>, owner: string): set<Name> {
    set n | n in runs && Holding(runs[n], owner)
  }

  /** Instances whose first step was created on the day of `now`. */
  function InstancesToday(runs: map<Name, Child>, first: string, now: int): set<Instance> {
    set n | n in runs && runs[n].step == first && now / DAY * DAY <= runs[n].createdAt < now / DAY * DAY + DAY :: runs[n].instance
  }

  ghost predicate LabelsMatch(w: Workflow, run: Child) {
    && Application(w).Some? && Application(run.digest) == Application(w)
    && (w.dynamic != "" ==> run.digest.dynamic == w.dynamic)
    && (w.repository != "" ==> run.digest.repository == w.repository)
  }

  /** The run is the child of this chain that the active instance recorded for `step`. */
  ghost predicate Provenance(c: Chain, a: Active, step: string, uid: string, run: Child) {
    && (uid != "" ==> run.uid == uid)
    && run.owner == c.uid && run.generation == a.generation && a.digest == Some(run.digest)
    && run.instance == a.instance && run.step == step
    && LabelsMatch(c.spec.workflow, run)
  }

  ghost function RunByRef(
    c: Chain, a: Active, step: string, ref: Option<Name>, uid: string, runs: map<Name, Child>): Option<Child>
  {
    if ref.Some? && ref.value in runs && Provenance(c, a, step, uid, runs[ref.value]) then Some(runs[ref.value]) else None
  }

  function Ancestors(step: StepSpec): seq<string> {
    if step.handoff.None? then []
    else if step.handoff.value == [] && step.when.Some? && Trim(step.when.value.previous) != "" then [step.when.value.previous]
    else step.handoff.value
  }

  function Handoff(step: StepSpec, prior: Option<map<string, Child>>): seq<Option<string>> {
    if prior.None? then []
    else
      var names := Ancestors(step);
      seq(|names|, i requires 0 <= i < |names| => if names[i] in prior.value then Some(prior.value[names[i]].output) else None)
  }

  /** Everything that identifies a child about to be created. */
  datatype Plan = Plan(
    owner: string, application: string, instance: Instance, generation: int, digest: Workflow,
    step: StepSpec, prior: Option<map<string, Child>>, detectedAt: Option<int>)

  function PlannedName(p: Plan): Name {
    Name(p.instance, p.step.name)
  }

  function Planned(p: Plan, uid: string, now: int): Child {
    Child(
      uid, p.owner, p.instance, p.step.name, p.generation, p.digest,
      Content(p.step.template, p.application, Handoff(p.step, p.prior), p.detectedAt),
      now, Unfinished, None, None, "")
  }

  /** An existing run is taken over only if it is exactly the planned child. */
  predicate SameChild(run: Child, expected: Child) {
    && run.owner == expected.owner && run.instance == expected.instance && run.step == expected.step
    && run.generation == expected.generation && run.digest == expected.digest && run.content == expected.content
  }

  /** The child for a plan: existing, newly created with identity `uid`, or refused. */
  function CreateChild(p: Plan, runs: map<Name, Child>, uid: string, now: int): Option<Child> {
    if p.step.application.Some? && Trim(p.step.application.value) != p.application then None
    else
      var expected := Planned(p, uid, now);
      if PlannedName(p) !in runs then Some(expected)
      else if SameChild(runs[PlannedName(p)], expected) then Some(runs[PlannedName(p)])
      else None
  }

  // ----- the active instance -----

  function RecordOf(a: Active, step: string, name: Name, run: Child): StepRun
    requires a.digest.Some?
  {
    StepRun(a.instance, step, name, run.uid, run.phase, a.generation, a.digest.value)
  }

  function Cleared(s: Status, phase: ChainPhase): Status
    requires s.active.Some?
  {
    s.(phase := phase, active := None, cancelRequested := None, lastInstance := Some(s.active.value.instance))
  }

  /** The runs of the recorded steps of the active instance, if all still check out. */
  ghost function Priors(c: Chain, a: Active, records: seq<StepRun>, runs: map<Name, Child>): Option<map<string, Child>> {
    if records == [] then Some(map[])
    else
      var rest := Priors(c, a, records[..|records| - 1], runs);
      var last := records[|records| - 1];
      if rest.None? || last.instance != a.instance then rest
      else
        var run := RunByRef(c, a, last.step, Some(last.name), last.uid, runs);
        if run.None? then None else Some(rest.value[last.step := run.value])
  }

  ghost function Advance(
    c: Chain, s: Status, k: nat, current: Child, prior: map<string, Child>,
    app: string, runs: map<Name, Child>, uid: string, now: int): (o: Outcome)
    requires s.active.Some? && s.active.value.digest.Some? && k + 1 < |c.spec.workflow.steps|
    ensures o.Write? || o.Fail?
  {
    var a := s.active.value;
    var step := c.spec.workflow.steps[k + 1];
    var p := Plan(
      c.uid, app, a.instance, a.generation, a.digest.value, step,
      Some(prior[c.spec.workflow.steps[k].name := current]), Some(FinishedAt(current)));
    var run := CreateChild(p, runs, uid, now);
    if run.None? then Fail
    else
      var name := PlannedName(p);
      Write(
        s.(
          phase := Running,
          active := Some(a.(step := step.name, ref := Some(name), uid := run.value.uid)),
          stepRuns := Upsert(s.stepRuns, RecordOf(a, step.name, name, run.value))),
        runs[name := run.value])
  }

  /** What follows once the run of step `k` has been resolved. */
  ghost function Follow(
    c: Chain, s: Status, k: nat, current: Child, app: string, runs: map<Name, Child>, uid: string, now: int): (o: Outcome)
    requires s.active.Some? && s.active.value.digest.Some? && k < |c.spec.workflow.steps|
    ensures o.Write? || o.Fail?
  {
    var steps := c.spec.workflow.steps;
    var stopped := s.(nextStartAt := BackedOff(c.spec.backoff, s.nextStartAt, current, now));
    if !Terminal(current.phase) then Write(s.(phase := Running), runs)
    else if current.phase == NeedsHuman then Write(Cleared(stopped, WaitingHuman), runs)
    else if k + 1 >= |steps| then
      Write(Cleared(if CompletionMatches(c.spec.workflow.completion, current) then s else stopped, Idle), runs)
    else if !WhenMatches(steps[k + 1].when, steps[k].name, current) then Write(Cleared(stopped, Idle), runs)
    else
      var prior := Priors(c, s.active.value, s.stepRuns, runs);
      if prior.None? then Write(s.(phase := Blocked), runs)
      else Advance(c, s, k, current, prior.value, app, runs, uid, now)
  }

  ghost function ReconcileActive(c: Chain, s: Status, app: string, runs: map<Name, Child>, uid: string, now: int): (o: Outcome)
    requires s.active.Some?
    ensures o.Write? || o.Fail?
  {
    var a := s.active.value;
    var blocked := Write(s.(phase := Blocked), runs);
    if a.generation == 0 || a.digest.None? || a.digest.value != c.spec.workflow then blocked
    else
      var k := StepAt(c.spec.workflow.steps, Trim(a.step));
      var current := RunByRef(c, a, a.step, a.ref, a.uid, runs);
      if k == |c.spec.workflow.steps| || current.None? then blocked
      else
        var recorded := s.(stepRuns := Upsert(s.stepRuns, RecordOf(a, a.step, a.ref.value, current.value)));
        Follow(c, recorded, k, current.value, app, runs, uid, now)
  }

  ghost function CancelActive(c: Chain, s: Status, runs: map<Name, Child>): (o: Outcome)
    requires s.active.Some?
    ensures o.Write? || o.Fail?
  {
    var a := s.active.value;
    var current := RunByRef(c, a, a.step, a.ref, a.uid, runs);
    if current.None? then Write(s.(phase := Blocked), runs)
    else if !Terminal(current.value.phase) then Write(s.(phase := Cancelling), runs)
    else Write(Cleared(s, Idle), runs)
  }

  // ----- recovering ownership -----

  ghost predicate Recoverable(run: Child) {
    run.generation > 0 && Trim(run.step) != "" && Application(run.digest).Some?
  }

  /** Ownership of an unfinished child whose status was lost. */
  function Recovered(c: Chain, s: Status, name: Name, run: Child, now: int): Status {
    var token := Trim(c.startToken);
    var base := if run.instance.Interval? && run.content.detectedAt.Some? then run.content.detectedAt.value else run.createdAt;
    s.(
      phase := Running,
      active := Some(Active(run.instance, run.step, Some(name), run.uid, run.generation, Some(run.digest))),
      lastInstance := Some(run.instance),
      lastStartToken := if token != "" && run.instance == Manual(token) then token else s.lastStartToken,
      nextStartAt := if c.spec.interval > 0 then Some(NextCadenceAfter(base, c.spec.interval, now)) else s.nextStartAt,
      stepRuns := [StepRun(run.instance, run.step, name, run.uid, run.phase, run.generation, run.digest)])
  }

  // ----- starting an instance -----

  ghost predicate Collides(runs: map<Name, Child>, instance: Instance, generation: int, digest: Workflow) {
    exists n :: n in runs && runs[n].instance == instance && (runs[n].generation != generation || runs[n].digest != digest)
  }

  function StartToken(c: Chain, s: Status): Option<string> {
    var token := Trim(c.startToken);
    if token != "" && token != s.lastStartToken then Some(token) else None
  }

  /** Starts the instance of `token`, or the one due at `due`. */
  ghost function Launch(
    c: Chain, s: Status, app: string, token: Option<string>, due: int, runs: map<Name, Child>, uid: string, now: int): (o: Outcome)
    requires c.spec.workflow.steps != []
    ensures o.Write? || o.Fail?
  {
    var instance := if token.Some? then Manual(token.value) else Interval(due);
    if Collides(runs, instance, c.generation, c.spec.workflow) then Write(s.(phase := Blocked), runs)
    else
      var p := Plan(
        c.uid, app, instance, c.generation, c.spec.workflow, c.spec.workflow.steps[0], None,
        if token.Some? then None else Some(due));
      var run := CreateChild(p, runs, uid, now);
      if run.None? then Fail
      else
        var name := PlannedName(p);
        var a := Active(instance, p.step.name, Some(name), run.value.uid, c.generation, Some(c.spec.workflow));
        Write(
          s.(
            phase := Running, active := Some(a), lastInstance := Some(instance),
            stepRuns := [RecordOf(a, a.step, name, run.value)],
            lastStartToken := if token.Some? then token.value else s.lastStartToken,
            nextStartAt :=
              if c.spec.interval > 0 then Some((if token.Some? then now else due) + c.spec.interval)
              else if token.None? then None
              else s.nextStartAt),
          runs[name := run.value])
  }

  ghost function Start(c: Chain, s: Status, app: string, runs: map<Name, Child>, uid: string, now: int): (o: Outcome)
    requires c.spec.workflow.steps != []
    ensures o.Write? || o.Fail?
  {
    var token := StartToken(c, s);
    var next := NextStart(c.spec, c.createdAt, s.nextStartAt, now);
    var scheduled := s.(nextStartAt := if next.Some? then next else s.nextStartAt);
    var until := BackoffUntil(c.spec.backoff, scheduled, runs, now);
    if token.None? && (next.None? || next.value > now) then Write(scheduled.(phase := Idle), runs)
    else if token.None? && c.spec.maxPerDay > 0
         && |InstancesToday(runs, c.spec.workflow.steps[0].name, now)| >= c.spec.maxPerDay then
      Write(scheduled.(phase := Idle), runs)
    else if token.None? && until.Some? then Write(scheduled.(phase := Idle, nextStartAt := until), runs)
    else Launch(c, scheduled, app, token, DueAt(c.spec, c.createdAt, token.Some?, next, now), runs, uid, now)
  }

  // ----- the whole reconcile -----

  /** Cancellation first, then the active instance, then a new one. */
  ghost function Drive(c: Chain, s: Status, app: string, runs: map<Name, Child>, uid: string, now: int): (o: Outcome)
    requires c.spec.workflow.steps != []
    ensures o.Write? || o.Fail?
  {
    var asked := c.cancel != NoCancel && c.cancel != s.lastCancelToken;
    if asked && s.active.Some? && (c.cancel == CancelAll || c.cancel == Cancel(s.active.value.instance)) then
      Write(s.(phase := Cancelling, cancelRequested := Some(s.active.value.instance), lastCancelToken := c.cancel), runs)
    else
      var noted := if asked then s.(lastCancelToken := c.cancel) else s;
      if noted.active.Some? && noted.cancelRequested == Some(noted.active.value.instance) then CancelActive(c, noted, runs)
      else if noted.active.Some? then ReconcileActive(c, noted, app, runs, uid, now)
      else Start(c, noted, app, runs, uid, now)
  }

  /** Forbid: without an active instance, an unfinished child is recovered first. */
  ghost function Resume(c: Chain, s: Status, app: string, runs: map<Name, Child>, uid: string, now: int): (o: Outcome)
    requires c.spec.workflow.steps != []
    ensures o.Write? || o.Fail?
  {
    var held := UnfinishedRuns(runs, c.uid);
    if s.active.Some? || held == {} then Drive(c, s, app, runs, uid, now)
    else if |held| > 1 then Write(s.(phase := Blocked), runs)
    else
      var name :| name in held;
      if Recoverable(runs[name]) then Write(Recovered(c, s, name, runs[name], now), runs)
      else Write(s.(phase := Blocked), runs)
  }

  /** `paused` tells whether the application is paused; `uid` is the identity a new child would get. */
  ghost function Reconcile(c: Chain, paused: bool, runs: map<Name, Child>, uid: string, now: int): Outcome {
    var s := c.status;
    if c.deleting then
      if !c.finalizer || UnfinishedRuns(runs, c.uid) != {} then Nothing else Finalize(false)
    else if !c.finalizer then Finalize(true)
    else if !ValidSpec(c.spec) then Write(s.(phase := Blocked, nextStartAt := None), runs)
    else if c.spec.suspend then Write(s.(phase := Suspended), runs)
    else if Application(c.spec.workflow).None? then Write(s.(phase := Blocked, nextStartAt := None), runs)
    else if paused then Write(s.(phase := Suspended), runs)
    else Resume(c, s, Application(c.spec.workflow).value, runs, uid, now)
  }
}
