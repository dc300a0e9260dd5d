/** A run of a chain of two steps in which a cancelled instance comes back: the status
    that points to its second child is lost, and the child is recovered once the cancelled
    instance was released. */
module RecoveryExamples {
  import opened Strings
  import opened AgentRuns
  import opened ChainTypes
  import opened ChainCadence
  import opened ChainSpec
  import opened ChainEffects
  import opened ChainRuns
  import ChainExamples
  import ChainRelease
  import ChainTheorems

  /** An application, two steps, a start token, the chain's uid and those of its children. */
  datatype Cast = Cast(
    application: string, first: string, second: string, token: string, uid: string, one: string, two: string)

  predicate Proper(x: Cast) {
    && Trim(x.application) == x.application != "" && Trim(x.token) == x.token != ""
    && Trim(x.first) == x.first != "" && Trim(x.second) == x.second != "" && x.first != x.second
  }

  function Graph(x: Cast): Workflow {
    Workflow(
      Some(x.application), [], "", "",
      [StepSpec(x.first, None, None, "", None), StepSpec(x.second, Some(When(x.first, [], [])), None, "", None)])
  }

  /** Started by hand only. */
  function Plain(x: Cast): Spec {
    Spec(Graph(x), Forbid, false, 0, 0, 0, None)
  }

  lemma PlainValid(x: Cast)
    requires Proper(x)
    ensures ValidSpec(Plain(x)) && Application(Graph(x)) == Some(x.application)
  {
    var steps := Graph(x).steps;
    assert steps[..1][..0] == [] && StepApplications(steps[..1][..0]) == [];
    assert StepApplications(steps[..1]) == [] && StepApplications(steps) == [];
    assert Applications(Graph(x)) == [x.application];
    assert ValidStep(steps, 0) && ValidStep(steps, 1);
  }

  function Subject(x: Cast): Instance {
    Manual(x.token)
  }

  function FirstName(x: Cast): Name {
    Name(Subject(x), x.first)
  }

  function SecondName(x: Cast): Name {
    Name(Subject(x), x.second)
  }

  function FirstChild(x: Cast, phase: RunPhase): Child {
    Child(
      x.one, x.uid, Subject(x), x.first, 1, Graph(x), Content("", x.application, [], None), 0, phase, None, None, "")
  }

  function SecondChild(x: Cast): Child {
    Child(
      x.two, x.uid, Subject(x), x.second, 1, Graph(x), Content("", x.application, [], Some(0)), 0, Unfinished, None, None, "")
  }

  function Both(x: Cast): map<Name, Child> {
    map[FirstName(x) := FirstChild(x, Succeeded), SecondName(x) := SecondChild(x)]
  }

  // ----- statuses -----

  function OnFirst(x: Cast): Active {
    Active(Subject(x), x.first, Some(FirstName(x)), x.one, 1, Some(Graph(x)))
  }

  function Started(x: Cast): Status {
    Status(
      Running, Some(OnFirst(x)), None, Some(Subject(x)),
      [StepRun(Subject(x), x.first, FirstName(x), x.one, Unfinished, 1, Graph(x))], None, x.token, NoCancel)
  }

  function Cancelling(x: Cast): Status {
    Started(x).(phase := ChainPhase.Cancelling, cancelRequested := Some(Subject(x)), lastCancelToken := CancelAll)
  }

  function Released(x: Cast): Status {
    Cancelling(x).(phase := Idle, active := None, cancelRequested := None)
  }

  function Object(x: Cast, cancel: CancelToken, status: Status): Chain {
    Chain(x.uid, 1, Plain(x), x.token, cancel, 0, true, false, status)
  }

  // ----- reconciles -----

  lemma {:induction false} Starts(x: Cast)
    requires Proper(x)
    ensures Reconcile(Object(x, NoCancel, EMPTY_STATUS), false, map[], x.one, 0) ==
      Write(Started(x), map[FirstName(x) := FirstChild(x, Unfinished)])
  {
    var c := Object(x, NoCancel, EMPTY_STATUS);
    PlainValid(x);
    assert UnfinishedRuns(map[], x.uid) == {};
    assert Reconcile(c, false, map[], x.one, 0) == Start(c, c.status, x.application, map[], x.one, 0);
    assert map[][FirstName(x) := FirstChild(x, Unfinished)] == map[FirstName(x) := FirstChild(x, Unfinished)];
  }

  lemma FirstResolved(x: Cast, c: Chain, runs: map<Name, Child>)
    requires Proper(x) && c.uid == x.uid && c.spec == Plain(x)
    requires FirstName(x) in runs && runs[FirstName(x)] == FirstChild(x, Succeeded)
    ensures RunByRef(c, OnFirst(x), x.first, Some(FirstName(x)), x.one, runs) == Some(FirstChild(x, Succeeded))
  {
    PlainValid(x);
  }

  lemma UpsertOnly(r: StepRun, next: StepRun)
    requires SameStep(r, next)
    ensures Upsert([r], next) == [next]
  {
    assert [r][..0] == [] && SameStep([r][0], next);
    assert Replaced([r], next) == [] + [next];
  }

  function Record(x: Cast): StepRun {
    StepRun(Subject(x), x.first, FirstName(x), x.one, Succeeded, 1, Graph(x))
  }

  lemma OnlyPrior(x: Cast, c: Chain, runs: map<Name, Child>)
    requires Proper(x) && c.uid == x.uid && c.spec == Plain(x)
    requires FirstName(x) in runs && runs[FirstName(x)] == FirstChild(x, Succeeded)
    ensures Priors(c, OnFirst(x), [Record(x)], runs).Some?
  {
    FirstResolved(x, c, runs);
    assert [Record(x)][..0] == [];
  }

  /** The step of the active instance in which the second child is created. */
  lemma {:induction false} Follows(x: Cast, c: Chain, s: Status, runs: map<Name, Child>) returns (s': Status)
    requires Proper(x) && c.uid == x.uid && c.spec == Plain(x)
    requires runs == map[FirstName(x) := FirstChild(x, Succeeded)]
    requires s.active == Some(OnFirst(x)) && s.stepRuns == [Record(x)]
    ensures Follow(c, s, 0, FirstChild(x, Succeeded), x.application, runs, x.two, 0) == Write(s', Both(x))
    ensures s'.active == Some(Active(Subject(x), x.second, Some(SecondName(x)), x.two, 1, Some(Graph(x))))
  {
    OnlyPrior(x, c, runs);
    var prior := Priors(c, OnFirst(x), [Record(x)], runs).value;
    assert runs[SecondName(x) := SecondChild(x)] == Both(x);
    var step := Graph(x).steps[1];
    assert WhenMatches(step.when, x.first, FirstChild(x, Succeeded));
    assert Handoff(step, Some(prior[x.first := FirstChild(x, Succeeded)])) == [];
    s' := Advance(c, s, 0, FirstChild(x, Succeeded), prior, x.application, runs, x.two, 0).status;
  }

  /** With its first child succeeded the instance advances. */
  lemma {:induction false} Advances(x: Cast) returns (s: Status)
    requires Proper(x)
    ensures Reconcile(Object(x, NoCancel, Started(x)), false, map[FirstName(x) := FirstChild(x, Succeeded)], x.two, 0) ==
      Write(s, Both(x))
    ensures s.active == Some(Active(Subject(x), x.second, Some(SecondName(x)), x.two, 1, Some(Graph(x))))
  {
    var c := Object(x, NoCancel, Started(x));
    var runs := map[FirstName(x) := FirstChild(x, Succeeded)];
    PlainValid(x);
    FirstResolved(x, c, runs);
    UpsertOnly(c.status.stepRuns[0], Record(x));
    assert StepAt(Graph(x).steps, x.first) == 0;
    assert Reconcile(c, false, runs, x.two, 0) == ReconcileActive(c, c.status, x.application, runs, x.two, 0);
    s := Follows(x, c, c.status.(stepRuns := [Record(x)]), runs);
  }

  lemma {:induction false} CancelNoted(x: Cast)
    requires Proper(x)
    ensures Reconcile(Object(x, CancelAll, Started(x)), false, Both(x), "", 0) == Write(Cancelling(x), Both(x))
  {
    PlainValid(x);
  }

  lemma {:induction false} CancelReleases(x: Cast)
    requires Proper(x)
    ensures Reconcile(Object(x, CancelAll, Cancelling(x)), false, Both(x), "", 0) == Write(Released(x), Both(x))
  {
    PlainValid(x);
    FirstResolved(x, Object(x, CancelAll, Cancelling(x)), Both(x));
  }

  lemma {:induction false} Recovers(x: Cast) returns (s: Status)
    requires Proper(x)
    ensures Reconcile(Object(x, CancelAll, Released(x)), false, Both(x), "", 0) == Write(s, Both(x))
    ensures s.active.Some? && s.active.value.instance == Subject(x) && s.active.value.step == x.second
  {
    var c := Object(x, CancelAll, Released(x));
    PlainValid(x);
    assert UnfinishedRuns(Both(x), x.uid) == {SecondName(x)};
    ChainRelease.OrphanRecovered(c, Both(x), "", 0, SecondName(x));
    s := Reconcile(c, false, Both(x), "", 0).status;
  }

  // ----- the run -----

  /** Between reconciles. */
  function Scene(x: Cast, c: Chain, runs: map<Name, Child>, created: seq<Creation>): World {
    World(x.uid, Some(c), runs, Resting, 0, created)
  }

  /** The finalizer is installed. */
  lemma {:induction false} InstalledRun(x: Cast) returns (tr: Trace)
    requires Proper(x)
    ensures Run(tr) && Last(tr) == Scene(x, Object(x, NoCancel, EMPTY_STATUS), map[], [])
  {
    var created := Object(x, NoCancel, EMPTY_STATUS).(finalizer := false);
    var start := Begin(created, 0);
    var w := Last(start);
    var loaded := Then(start, Load, w.(worker := Loaded(created, 0)));
    assert Run(start) && Run(loaded);
    var acted := Then(loaded, Act(false, ""), w.(worker := Finalizing(true)));
    assert Reconcile(created, false, map[], "", 0) == Finalize(true);
    assert Run(acted);
    tr := Then(acted, PatchFinalizer, w.(chain := Some(created.(finalizer := true))));
  }

  /** The instance is started. */
  lemma {:induction false} LaunchedRun(x: Cast) returns (tr: Trace)
    requires Proper(x)
    ensures Run(tr) && |Last(tr).created| == 1
    ensures Last(tr) ==
      Scene(x, Object(x, NoCancel, Started(x)), map[FirstName(x) := FirstChild(x, Unfinished)], Last(tr).created)
  {
    var runs := map[FirstName(x) := FirstChild(x, Unfinished)];
    var installed := InstalledRun(x);
    Starts(x);
    assert FirstName(x) in runs.Keys;
    tr := ChainExamples.Cycle(installed, x.one, Started(x), runs);
  }

  lemma FirstProgress(x: Cast, w: World)
    requires w.runs == map[FirstName(x) := FirstChild(x, Unfinished)]
    ensures RunStep(w, Progress(FirstName(x), FirstChild(x, Succeeded)),
      w.(runs := map[FirstName(x) := FirstChild(x, Succeeded)]))
  {
    assert w.runs[FirstName(x) := FirstChild(x, Succeeded)] == map[FirstName(x) := FirstChild(x, Succeeded)];
  }

  /** Its first child succeeds, and the next reconcile has read the chain. */
  lemma {:induction false} LoadedRun(x: Cast) returns (tr: Trace)
    requires Proper(x)
    ensures Run(tr) && |Last(tr).created| == 1 && Last(tr).worker == Loaded(Object(x, NoCancel, Started(x)), 0)
    ensures Last(tr).(worker := Resting) ==
      Scene(x, Object(x, NoCancel, Started(x)), map[FirstName(x) := FirstChild(x, Succeeded)], Last(tr).created)
  {
    var launched := LaunchedRun(x);
    FirstProgress(x, Last(launched));
    var done := Then(launched, Progress(FirstName(x), FirstChild(x, Succeeded)),
      Last(launched).(runs := map[FirstName(x) := FirstChild(x, Succeeded)]));
    assert Run(done);
    tr := Then(done, Load, Last(done).(worker := Loaded(Object(x, NoCancel, Started(x)), 0)));
  }

  /** The second child is created, and its status is about to be written. */
  lemma {:induction false} AdvancingRun(x: Cast) returns (tr: Trace)
    requires Proper(x)
    ensures Run(tr) && |Last(tr).created| == 2 && Last(tr).worker.Patching?
    ensures Last(tr).worker.status.active == Some(Active(Subject(x), x.second, Some(SecondName(x)), x.two, 1, Some(Graph(x))))
    ensures Last(tr).(worker := Resting) == Scene(x, Object(x, NoCancel, Started(x)), Both(x), Last(tr).created)
  {
    var loaded := LoadedRun(x);
    var w := Last(loaded);
    var c := w.worker.copy;
    var s := Advances(x);
    assert SecondName(x) in Both(x).Keys && SecondName(x) !in w.runs.Keys;
    var created := w.created + [CreationOf(c, s.active.value, w.runs)];
    tr := Then(loaded, Act(false, x.two), w.(runs := Both(x), worker := Patching(s, 0), created := created));
    assert Acted(w, c, Write(s, Both(x)), 0, tr.world);
  }

  /** The controller stops before it writes the status. */
  lemma {:induction false} LostRun(x: Cast) returns (tr: Trace)
    requires Proper(x)
    ensures Run(tr) && !ChainRelease.NoneLost(tr, Subject(x)) && |Last(tr).created| == 2
    ensures Last(tr) == Scene(x, Object(x, NoCancel, Started(x)), Both(x), Last(tr).created)
  {
    var acted := AdvancingRun(x);
    assert SecondName(x) in UnfinishedRuns(Both(x), x.uid);
    assert ChainRelease.Loses(Last(acted), Crash, Subject(x));
    tr := Then(acted, Crash, Last(acted).(worker := Resting));
  }

  /** One more reconcile that creates nothing; what was lost stays lost. */
  lemma {:induction false} QuietCycle(tr: Trace, x: Cast, c: Chain, s: Status, created: seq<Creation>) returns (longer: Trace)
    requires Run(tr) && !ChainRelease.NoneLost(tr, Subject(x)) && Last(tr) == Scene(x, c, Both(x), created)
    requires Reconcile(c, false, Both(x), "", 0) == Write(s, Both(x))
    ensures Run(longer) && !ChainRelease.NoneLost(longer, Subject(x))
    ensures Last(longer) == Scene(x, c.(status := s), Both(x), created)
    ensures StartToken(c, c.status).None? ==> ChainRelease.NotAsked(longer, tr, Subject(x))
  {
    longer := ChainExamples.Cycle(tr, "", s, Both(x));
    assert !ChainRelease.NoneLost(longer.before.before, Subject(x));
    assert !ChainRelease.NoneLost(longer.before, Subject(x));
    assert ChainRelease.NotAsked(tr, tr, Subject(x));
    assert ChainRelease.NotAsked(longer.before.before, tr, Subject(x));
    if StartToken(c, c.status).None? {
      assert ChainRelease.NotAsked(longer.before, tr, Subject(x));
    }
  }

  /** The instance is cancelled and released. */
  lemma {:induction false} ReleasedRun(x: Cast) returns (tr: Trace)
    requires Proper(x)
    ensures Run(tr) && !ChainRelease.NoneLost(tr, Subject(x)) && |Last(tr).created| == 2
    ensures Last(tr) == Scene(x, Object(x, CancelAll, Released(x)), Both(x), Last(tr).created)
  {
    var lost := LostRun(x);
    var w := Last(lost);
    var asked := Then(lost, RequestCancel(CancelAll), w.(chain := Some(Object(x, CancelAll, Started(x)))));
    assert Run(asked) && !ChainRelease.NoneLost(asked, Subject(x));
    CancelNoted(x);
    var noted := QuietCycle(asked, x, Object(x, CancelAll, Started(x)), Cancelling(x), w.created);
    CancelReleases(x);
    tr := QuietCycle(noted, x, Object(x, CancelAll, Cancelling(x)), Released(x), w.created);
  }

  /** A run from a new chain in which a cancelled and released instance that nobody asks
      for is active again, on the child of the lost status. */
  lemma {:induction false} CancelledInstanceReturns(x: Cast) returns (released: Trace, tr: Trace)
    requires Proper(x)
    ensures Run(released) && ChainRelease.Away(Last(released), Subject(x))
    ensures Run(tr) && ChainRelease.NotAsked(tr, released, Subject(x)) && !ChainRelease.NoneLost(tr, Subject(x))
    ensures Last(tr).chain.Some? && Last(tr).chain.value.status.active.Some?
    ensures Last(tr).chain.value.status.active.value.instance == Subject(x)
  {
    released := ReleasedRun(x);
    var s := Recovers(x);
    tr := QuietCycle(released, x, Object(x, CancelAll, Released(x)), s, Last(released).created);
  }
}
