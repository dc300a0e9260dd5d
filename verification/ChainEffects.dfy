/** What one reconcile can do to the active instance and the children: nothing,
    recover, release, advance by one step, or start. */
module ChainEffects {
  import opened Strings
  import opened AgentRuns
  import opened ChainTypes
  import opened ChainCadence
  import opened ChainSpec

  /** The run is the child of this owner, instance and step, frozen at this workflow. */
  predicate Belongs(run: Child, owner: string, a: Active) {
    && run.owner == owner && run.instance == a.instance && run.step == a.step
    && run.generation == a.generation && a.digest == Some(run.digest)
  }

  function Here(a: Active): Name {
    Name(a.instance, a.step)
  }

  /** The child `a` points to exists afterwards; nothing else changed. */
  ghost predicate Takes(owner: string, a: Active, runs: map<Name, Child>, runs': map<Name, Child>) {
    && a.ref == Some(Here(a)) && a.digest.Some? && Here(a) in runs' && Belongs(runs'[Here(a)], owner, a)
    && runs' == runs[Here(a) := runs'[Here(a)]]
    && (Here(a) in runs ==> runs'[Here(a)] == runs[Here(a)])
  }

  ghost predicate Recovers(owner: string, a': Active, runs: map<Name, Child>) {
    && a'.ref.Some? && UnfinishedRuns(runs, owner) == {a'.ref.value} && a'.ref.value in runs
    && Belongs(runs[a'.ref.value], owner, a')
  }

  /** The active run checks out and is terminal. */
  ghost predicate Settled(owner: string, a: Active, runs: map<Name, Child>) {
    && a.ref.Some? && a.ref.value in runs && Belongs(runs[a.ref.value], owner, a)
    && Terminal(runs[a.ref.value].phase)
  }

  ghost predicate Advances(c: Chain, a: Active, a': Active, runs: map<Name, Child>, runs': map<Name, Child>) {
    && Settled(c.uid, a, runs) && a.digest == Some(c.spec.workflow)
    && a'.instance == a.instance && a'.generation == a.generation && a'.digest == a.digest
    && Takes(c.uid, a', runs, runs')
    && var steps := c.spec.workflow.steps;
       var k := StepAt(steps, a.step);
       && k + 1 < |steps| && a'.step == steps[k + 1].name
       && WhenMatches(steps[k + 1].when, a.step, runs[a.ref.value])
  }

  ghost predicate Starts(c: Chain, a': Active, runs: map<Name, Child>, runs': map<Name, Child>) {
    && UnfinishedRuns(runs, c.uid) == {}
    && a'.generation == c.generation && a'.digest == Some(c.spec.workflow)
    && !Collides(runs, a'.instance, c.generation, c.spec.workflow)
    && Takes(c.uid, a', runs, runs')
    && c.spec.workflow.steps != [] && a'.step == c.spec.workflow.steps[0].name
  }

  ghost predicate Effect(c: Chain, runs: map<Name, Child>, active: Option<Active>, runs': map<Name, Child>) {
    match (c.status.active, active)
    case (None, None) => runs' == runs
    case (None, Some(a')) => (runs' == runs && Recovers(c.uid, a', runs)) || Starts(c, a', runs, runs')
    case (Some(a), None) => runs' == runs && Settled(c.uid, a, runs)
    case (Some(a), Some(a')) => (runs' == runs && a' == a) || Advances(c, a, a', runs, runs')
  }

  // ----- each part -----

  lemma LaunchEffect(
    c: Chain, s: Status, app: string, token: Option<string>, due: int, runs: map<Name, Child>, uid: string, now: int)
    requires c.spec.workflow.steps != [] && UnfinishedRuns(runs, c.uid) == {}
    requires c.status.active.None? && s.active.None?
    requires Launch(c, s, app, token, due, runs, uid, now).Write?
    ensures var o := Launch(c, s, app, token, due, runs, uid, now); Effect(c, runs, o.status.active, o.runs)
  {
  }

  lemma StartEffect(c: Chain, s: Status, app: string, runs: map<Name, Child>, uid: string, now: int)
    requires c.spec.workflow.steps != [] && UnfinishedRuns(runs, c.uid) == {}
    requires c.status.active.None? && s.active.None?
    requires Start(c, s, app, runs, uid, now).Write?
    ensures var o := Start(c, s, app, runs, uid, now); Effect(c, runs, o.status.active, o.runs)
  {
    var token := StartToken(c, s);
    var next := NextStart(c.spec, c.createdAt, s.nextStartAt, now);
    var scheduled := s.(nextStartAt := if next.Some? then next else s.nextStartAt);
    var due := DueAt(c.spec, c.createdAt, token.Some?, next, now);
    if Start(c, s, app, runs, uid, now) == Launch(c, scheduled, app, token, due, runs, uid, now) {
      LaunchEffect(c, scheduled, app, token, due, runs, uid, now);
    }
  }

  lemma AdvanceEffect(
    c: Chain, s: Status, k: nat, current: Child, prior: map<string, Child>,
    app: string, runs: map<Name, Child>, uid: string, now: int)
    requires c.status.active.Some? && s.active == c.status.active
    requires var a := s.active.value;
      && Settled(c.uid, a, runs) && runs[a.ref.value] == current && a.digest == Some(c.spec.workflow)
      && k + 1 < |c.spec.workflow.steps| && k == StepAt(c.spec.workflow.steps, a.step)
      && WhenMatches(c.spec.workflow.steps[k + 1].when, a.step, current)
    requires Advance(c, s, k, current, prior, app, runs, uid, now).Write?
    ensures var o := Advance(c, s, k, current, prior, app, runs, uid, now); Effect(c, runs, o.status.active, o.runs)
  {
  }

  /** The name a step is found by is the name its run carries. */
  lemma StepFound(c: Chain, a: Active, k: nat, current: Child)
    requires ValidSpec(c.spec) && k + 1 < |c.spec.workflow.steps| && k == StepAt(c.spec.workflow.steps, Trim(a.step))
    requires current.step == a.step
    requires WhenMatches(c.spec.workflow.steps[k + 1].when, c.spec.workflow.steps[k].name, current)
    ensures k == StepAt(c.spec.workflow.steps, a.step) && c.spec.workflow.steps[k].name == a.step
  {
    assert ValidStep(c.spec.workflow.steps, k);
  }

  lemma {:induction false} FollowEffect(
    c: Chain, s: Status, k: nat, current: Child, app: string, runs: map<Name, Child>, uid: string, now: int)
    requires ValidSpec(c.spec) && c.status.active.Some? && s.active == c.status.active
    requires var a := s.active.value;
      && a.ref.Some? && a.ref.value in runs && runs[a.ref.value] == current && Belongs(current, c.uid, a)
      && a.digest == Some(c.spec.workflow)
      && k < |c.spec.workflow.steps| && k == StepAt(c.spec.workflow.steps, Trim(a.step))
    requires Follow(c, s, k, current, app, runs, uid, now).Write?
    ensures var o := Follow(c, s, k, current, app, runs, uid, now); Effect(c, runs, o.status.active, o.runs)
  {
    var steps := c.spec.workflow.steps;
    if Terminal(current.phase) && current.phase != NeedsHuman && k + 1 < |steps|
       && WhenMatches(steps[k + 1].when, steps[k].name, current) {
      StepFound(c, s.active.value, k, current);
      var prior := Priors(c, s.active.value, s.stepRuns, runs);
      if prior.Some? {
        AdvanceEffect(c, s, k, current, prior.value, app, runs, uid, now);
      }
    }
  }

  lemma {:induction false} ActiveEffect(c: Chain, s: Status, app: string, runs: map<Name, Child>, uid: string, now: int)
    requires ValidSpec(c.spec) && c.status.active.Some? && s.active == c.status.active
    requires ReconcileActive(c, s, app, runs, uid, now).Write?
    ensures var o := ReconcileActive(c, s, app, runs, uid, now); Effect(c, runs, o.status.active, o.runs)
  {
    var a := s.active.value;
    var k := StepAt(c.spec.workflow.steps, Trim(a.step));
    var current := RunByRef(c, a, a.step, a.ref, a.uid, runs);
    if a.generation != 0 && a.digest == Some(c.spec.workflow) && k < |c.spec.workflow.steps| && current.Some? {
      var recorded := s.(stepRuns := Upsert(s.stepRuns, RecordOf(a, a.step, a.ref.value, current.value)));
      FollowEffect(c, recorded, k, current.value, app, runs, uid, now);
    }
  }

  lemma {:induction false} DriveEffect(c: Chain, s: Status, app: string, runs: map<Name, Child>, uid: string, now: int)
    requires ValidSpec(c.spec) && s == c.status
    requires s.active.None? ==> UnfinishedRuns(runs, c.uid) == {}
    requires Drive(c, s, app, runs, uid, now).Write?
    ensures var o := Drive(c, s, app, runs, uid, now); Effect(c, runs, o.status.active, o.runs)
  {
    var asked := c.cancel != NoCancel && c.cancel != s.lastCancelToken;
    if !(asked && s.active.Some? && (c.cancel == CancelAll || c.cancel == Cancel(s.active.value.instance))) {
      var noted := if asked then s.(lastCancelToken := c.cancel) else s;
      if noted.active.Some? && noted.cancelRequested != Some(noted.active.value.instance) {
        ActiveEffect(c, noted, app, runs, uid, now);
      } else if noted.active.None? {
        StartEffect(c, noted, app, runs, uid, now);
      }
    }
  }

  lemma Singleton(held: set<Name>, name: Name)
    requires name in held && |held| <= 1
    ensures held == {name}
  {
    assert |held - {name}| == |held| - 1;
    assert held - {name} == {};
  }

  lemma {:induction false} ResumeEffect(c: Chain, app: string, runs: map<Name, Child>, uid: string, now: int)
    requires ValidSpec(c.spec)
    requires Resume(c, c.status, app, runs, uid, now).Write?
    ensures var o := Resume(c, c.status, app, runs, uid, now); Effect(c, runs, o.status.active, o.runs)
  {
    var held := UnfinishedRuns(runs, c.uid);
    if c.status.active.Some? || held == {} {
      DriveEffect(c, c.status, app, runs, uid, now);
    } else if |held| <= 1 {
      var o := Resume(c, c.status, app, runs, uid, now);
      if o.status.active.Some? {
        Singleton(held, o.status.active.value.ref.value);
      }
    }
  }

  lemma {:induction false} ReconcileEffect(c: Chain, paused: bool, runs: map<Name, Child>, uid: string, now: int)
    requires Reconcile(c, paused, runs, uid, now).Write?
    ensures var o := Reconcile(c, paused, runs, uid, now);
      && !c.deleting && c.finalizer && Effect(c, runs, o.status.active, o.runs)
      && (o.runs != runs ==> ValidSpec(c.spec) && !c.spec.suspend && !paused)
  {
    if ValidSpec(c.spec) && !c.spec.suspend && Application(c.spec.workflow).Some? && !paused {
      ResumeEffect(c, Application(c.spec.workflow).value, runs, uid, now);
    }
  }
}
