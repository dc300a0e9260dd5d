/** Runs of a chain of one step: an edit that is invalid for one reconcile makes due
    times go back, a deletion does not stop a start already under way, a reused start
    token revives its instance, and a deleted child thaws its workflow. */
module ChainExamples {
  import opened Strings
  import opened AgentRuns
  import opened ChainTypes
  import opened ChainCadence
  import opened ChainSpec
  import opened ChainEffects
  import opened ChainRuns
  import ChainTheorems
  import ChainRelease

  /** An application, a step, a start token and the chain's uid. */
  datatype Cast = Cast(application: string, step: string, token: string, uid: string)

  predicate Proper(x: Cast) {
    && Trim(x.application) == x.application != "" && Trim(x.step) == x.step != "" && Trim(x.token) == x.token != ""
  }

  function Only(x: Cast): StepSpec {
    StepSpec(x.step, None, None, "", None)
  }

  function Graph(x: Cast): Workflow {
    Workflow(Some(x.application), [], "", "", [Only(x)])
  }

  /** Every 10 seconds, the first time 10 seconds after creation. */
  function Plain(x: Cast): Spec {
    Spec(Graph(x), Forbid, false, 10, 10, 0, None)
  }

  lemma PlainValid(x: Cast)
    requires Proper(x)
    ensures ValidSpec(Plain(x)) && Application(Graph(x)) == Some(x.application)
    ensures !ValidSpec(Plain(x).(policy := Queue))
  {
    var steps := Graph(x).steps;
    assert steps[..0] == [] && StepApplications(steps[..0]) == [];
    assert StepApplications(steps) == [];
    assert Applications(Graph(x)) == [x.application];
    assert ValidStep(steps, 0);
  }

  /** The chain between reconciles: nothing active, requested or unfinished. */
  predicate Ready(x: Cast, c: Chain) {
    && c.uid == x.uid && c.spec == Plain(x) && c.finalizer && !c.deleting && c.cancel == NoCancel && c.createdAt == 0
    && c.startToken == x.token && c.generation > 0
    && c.status.active.None? && c.status.cancelRequested.None?
  }

  predicate AllDone(runs: map<Name, Child>) {
    forall n :: n in runs ==> Terminal(runs[n].phase)
  }

  // ----- single reconciles -----

  /** The child an instance of the example starts with. */
  function ChildOf(x: Cast, c: Chain, instance: Instance, uid: string, now: int): Child {
    Child(
      uid, x.uid, instance, x.step, c.generation, Graph(x),
      Content("", x.application, [], if instance.Manual? then None else Some(instance.dueAt)),
      now, Unfinished, None, None, "")
  }

  /** The status after the start of an instance. */
  predicate StartedAs(x: Cast, c: Chain, s: Status, instance: Instance, uid: string, next: int) {
    && s.active == Some(Active(instance, x.step, Some(Name(instance, x.step)), uid, c.generation, Some(Graph(x))))
    && s.cancelRequested == None && s.nextStartAt == Some(next) && s.lastStartToken == x.token
  }

  /** A ready chain starts the manual instance of a new token, or the due one. */
  lemma {:induction false} ReadyStarts(x: Cast, c: Chain, runs: map<Name, Child>, uid: string, now: int, instance: Instance)
    requires Proper(x) && Ready(x, c) && AllDone(runs)
    requires forall n :: n in runs ==> n.instance != instance && runs[n].instance != instance
    requires if instance.Manual? then instance.token == x.token && c.status.lastStartToken != x.token
             else
               && c.status.lastStartToken == x.token && instance.dueAt <= now
               && NextStart(c.spec, 0, c.status.nextStartAt, now) == Some(instance.dueAt)
    ensures var o := Reconcile(c, false, runs, uid, now);
      && o.Write? && o.runs == runs[Name(instance, x.step) := ChildOf(x, c, instance, uid, now)]
      && StartedAs(x, c, o.status, instance, uid, (if instance.Manual? then now else instance.dueAt) + 10)
  {
    PlainValid(x);
    assert UnfinishedRuns(runs, x.uid) == {};
    assert Reconcile(c, false, runs, uid, now) == Start(c, c.status, x.application, runs, uid, now);
  }

  /** Once its only child has succeeded, the instance is released. */
  lemma {:induction false} SucceededReleases(
    x: Cast, c: Chain, runs: map<Name, Child>, uid: string, now: int, instance: Instance, next: int)
    requires Proper(x) && Ready(x, c.(status := EMPTY_STATUS)) && StartedAs(x, c, c.status, instance, uid, next)
    requires Name(instance, x.step) in runs
    requires runs[Name(instance, x.step)] == ChildOf(x, c, instance, uid, runs[Name(instance, x.step)].createdAt).(phase := Succeeded)
    ensures var o := Reconcile(c, false, runs, "", now);
      && o.Write? && o.runs == runs && o.status.active.None? && o.status.cancelRequested.None?
      && o.status.nextStartAt == Some(next) && o.status.lastStartToken == x.token
  {
    PlainValid(x);
    var a := c.status.active.value;
    assert StepAt(Graph(x).steps, x.step) == 0;
    assert RunByRef(c, a, a.step, a.ref, a.uid, runs) == Some(runs[Name(instance, x.step)]);
    assert Reconcile(c, false, runs, "", now) == ReconcileActive(c, c.status, x.application, runs, "", now);
  }

  /** An invalid spec forgets the schedule. */
  lemma InvalidForgets(x: Cast, c: Chain, runs: map<Name, Child>, now: int)
    requires Proper(x) && Ready(x, c.(spec := Plain(x))) && c.spec == Plain(x).(policy := Queue)
    ensures Reconcile(c, false, runs, "", now) == Write(c.status.(phase := Blocked, nextStartAt := None), runs)
  {
    PlainValid(x);
  }

  // ----- runs -----

  /** One reconcile from read to patch. */
  lemma {:induction false} Cycle(tr: Trace, uid: string, s: Status, runs: map<Name, Child>) returns (longer: Trace)
    requires Run(tr) && Last(tr).worker == Resting && Last(tr).chain.Some?
    requires Reconcile(Last(tr).chain.value, false, Last(tr).runs, uid, Last(tr).clock) == Write(s, runs)
    requires runs.Keys == Last(tr).runs.Keys || (s.active.Some? && s.active.value.digest.Some?)
    ensures Run(longer) && longer.Then? && longer.before.Then? && longer.action == PatchStatus
    ensures longer.before.action == Act(false, uid)
    ensures longer.before.before == Then(tr, Load, Last(tr).(worker := Loaded(Last(tr).chain.value, Last(tr).clock)))
    ensures
      var w := Last(tr);
      Last(longer) == w.(
        chain := Some(w.chain.value.(status := s)), runs := runs,
        created := if runs.Keys == w.runs.Keys then w.created
                   else w.created + [CreationOf(w.chain.value, s.active.value, w.runs)])
  {
    var w := Last(tr);
    var c := w.chain.value;
    var loaded := Then(tr, Load, w.(worker := Loaded(c, w.clock)));
    assert Run(loaded);
    var created := if runs.Keys == w.runs.Keys then w.created else w.created + [CreationOf(c, s.active.value, w.runs)];
    var acted := Then(loaded, Act(false, uid), w.(runs := runs, worker := Patching(s, w.clock), created := created));
    assert Acted(Last(loaded), c, Write(s, runs), w.clock, acted.world);
    assert Run(acted);
    longer := Then(acted, PatchStatus, Last(acted).(worker := Resting, chain := Some(c.(status := s))));
  }

  /** Between reconciles: the chain is ready, `seen` are the instances it has children of,
      all of them done, and `last` is the start token it used last. */
  predicate Calm(x: Cast, w: World, seen: set<Instance>, next: Option<int>, last: string) {
    && w.worker == Resting && w.uid == x.uid && w.chain.Some? && Ready(x, w.chain.value) && AllDone(w.runs)
    && w.chain.value.status.nextStartAt == next
    && w.chain.value.status.lastStartToken == last
    && forall n :: n in w.runs ==> n.instance in seen && w.runs[n].instance == n.instance
  }

  function Created(x: Cast): Chain {
    Chain(x.uid, 1, Plain(x), x.token, NoCancel, 0, false, false, EMPTY_STATUS)
  }

  /** The finalizer is installed at time 7. */
  lemma {:induction false} InstalledRun(x: Cast) returns (tr: Trace)
    requires Proper(x)
    ensures Run(tr) && Calm(x, Last(tr), {}, None, "") && Last(tr).clock == 7 && Last(tr).created == [] && Last(tr).runs == map[]
    ensures Last(tr).chain.value.generation == 1
  {
    var start := Begin(Created(x), 7);
    var w := Last(start);
    var loaded := Then(start, Load, w.(worker := Loaded(Created(x), 7)));
    assert Run(start) && Run(loaded);
    var acted := Then(loaded, Act(false, ""), w.(worker := Finalizing(true)));
    assert Reconcile(Created(x), false, map[], "", 7) == Finalize(true);
    assert Run(acted);
    tr := Then(acted, PatchFinalizer, w.(chain := Some(Created(x).(finalizer := true))));
  }

  /** What may start now. */
  predicate Startable(x: Cast, w: World, seen: set<Instance>, next: Option<int>, last: string, instance: Instance) {
    && Calm(x, w, seen, next, last) && instance !in seen
    && (if instance.Manual? then instance.token == x.token != last
        else last == x.token && instance.dueAt <= w.clock && NextStart(Plain(x), 0, next, w.clock) == Some(instance.dueAt))
  }

  function Following(w: World, instance: Instance): int {
    (if instance.Manual? then w.clock else instance.dueAt) + 10
  }

  lemma CreationFirst(x: Cast, c: Chain, s: Status, instance: Instance, uid: string, next: int, runs: map<Name, Child>)
    requires StartedAs(x, c, s, instance, uid, next)
    ensures var e := CreationOf(c, s.active.value, runs); e.instance == instance && e.index == 0 && e.generation == c.generation
  {
    assert StepAt(Graph(x).steps, x.step) == 0;
  }

  /** The reconcile that starts an instance, seen from the run. */
  lemma {:induction false} StartStep(x: Cast, w: World, seen: set<Instance>, next: Option<int>, last: string, instance: Instance, uid: string)
    returns (s: Status)
    requires Proper(x) && Startable(x, w, seen, next, last, instance)
    ensures Reconcile(w.chain.value, false, w.runs, uid, w.clock) ==
      Write(s, w.runs[Name(instance, x.step) := ChildOf(x, w.chain.value, instance, uid, w.clock)])
    ensures StartedAs(x, w.chain.value, s, instance, uid, Following(w, instance))
    ensures Name(instance, x.step) !in w.runs
  {
    ReadyStarts(x, w.chain.value, w.runs, uid, w.clock, instance);
    s := Reconcile(w.chain.value, false, w.runs, uid, w.clock).status;
  }

  /** An instance is started. */
  lemma {:induction false} StartedRun(
    tr: Trace, x: Cast, seen: set<Instance>, next: Option<int>, last: string, instance: Instance, uid: string) returns (longer: Trace)
    requires Run(tr) && Proper(x) && Startable(x, Last(tr), seen, next, last, instance)
    ensures Run(longer) && Last(longer).worker == Resting && Last(longer).chain.Some?
    ensures
      var (w, w') := (Last(tr), Last(longer));
      var (c, s) := (w.chain.value, w'.chain.value.status);
      && w' == w.(
           chain := Some(c.(status := s)), created := w'.created,
           runs := w.runs[Name(instance, x.step) := ChildOf(x, c, instance, uid, w.clock)])
      && StartedAs(x, c, s, instance, uid, Following(w, instance))
      && |w'.created| == |w.created| + 1 && w.created <= w'.created && w'.created[|w.created|].instance == instance
      && w'.created[|w.created|].index == 0 && w'.created[|w.created|].generation == c.generation
  {
    var w := Last(tr);
    var name := Name(instance, x.step);
    var runs := w.runs[name := ChildOf(x, w.chain.value, instance, uid, w.clock)];
    var s := StartStep(x, w, seen, next, last, instance, uid);
    assert name in runs.Keys && name !in w.runs.Keys;
    CreationFirst(x, w.chain.value, s, instance, uid, Following(w, instance), w.runs);
    longer := Cycle(tr, uid, s, runs);
  }

  /** Its child succeeds and it is released. */
  lemma {:induction false} ReleasedRun(
    tr: Trace, x: Cast, c: Chain, instance: Instance, uid: string, next: int) returns (longer: Trace)
    requires Run(tr) && Proper(x) && Last(tr).worker == Resting && Last(tr).chain == Some(c)
    requires Ready(x, c.(status := EMPTY_STATUS)) && StartedAs(x, c, c.status, instance, uid, next)
    requires Name(instance, x.step) in Last(tr).runs
    requires Last(tr).runs[Name(instance, x.step)] ==
      ChildOf(x, c, instance, uid, Last(tr).runs[Name(instance, x.step)].createdAt)
    ensures Run(longer) && Last(longer).chain.Some?
    ensures
      var (w, w') := (Last(tr), Last(longer));
      var (name, s) := (Name(instance, x.step), w'.chain.value.status);
      && w' == w.(runs := w.runs[name := w.runs[name].(phase := Succeeded)], chain := Some(c.(status := s)))
      && s.active.None? && s.cancelRequested.None? && s.nextStartAt == Some(next) && s.lastStartToken == x.token
  {
    var w := Last(tr);
    var name := Name(instance, x.step);
    var done := Then(tr, Progress(name, w.runs[name].(phase := Succeeded)),
      w.(runs := w.runs[name := w.runs[name].(phase := Succeeded)]));
    assert Run(done);
    SucceededReleases(x, c, Last(done).runs, uid, w.clock, instance, next);
    var o := Reconcile(c, false, Last(done).runs, "", w.clock);
    longer := Cycle(done, "", o.status, o.runs);
  }

  /** An instance runs from start to release. */
  lemma {:induction false} InstanceRun(
    tr: Trace, x: Cast, seen: set<Instance>, next: Option<int>, last: string, instance: Instance, uid: string) returns (longer: Trace)
    requires Run(tr) && Proper(x) && Startable(x, Last(tr), seen, next, last, instance)
    ensures Run(longer) && Calm(x, Last(longer), seen + {instance}, Some(Following(Last(tr), instance)), x.token)
    ensures Last(longer).clock == Last(tr).clock && Last(longer).chain.value.generation == Last(tr).chain.value.generation
    ensures Last(longer).runs == Last(tr).runs[Name(instance, x.step) :=
      ChildOf(x, Last(tr).chain.value, instance, uid, Last(tr).clock).(phase := Succeeded)]
    ensures |Last(longer).created| == |Last(tr).created| + 1 && Last(tr).created <= Last(longer).created
    ensures Last(longer).created[|Last(tr).created|].instance == instance && Last(longer).created[|Last(tr).created|].index == 0
    ensures Last(longer).created[|Last(tr).created|].generation == Last(tr).chain.value.generation
  {
    var started := StartedRun(tr, x, seen, next, last, instance, uid);
    longer := ReleasedRun(started, x, Last(started).chain.value, instance, uid, Following(Last(tr), instance));
  }

  /** The spec is edited to be invalid, reconciled, and edited back. */
  lemma {:induction false} ForgottenRun(tr: Trace, x: Cast, seen: set<Instance>, next: Option<int>, last: string) returns (longer: Trace)
    requires Run(tr) && Proper(x) && Calm(x, Last(tr), seen, next, last)
    ensures Run(longer) && Calm(x, Last(longer), seen, None, last)
    ensures Last(longer).clock == Last(tr).clock && Last(longer).created == Last(tr).created
  {
    var w := Last(tr);
    var c := w.chain.value;
    var bad := c.(spec := Plain(x).(policy := Queue), generation := c.generation + 1);
    var edited := Then(tr, EditSpec(Plain(x).(policy := Queue)), w.(chain := Some(bad)));
    assert Run(edited);
    InvalidForgets(x, bad, w.runs, w.clock);
    var forgot := Cycle(edited, "", bad.status.(phase := Blocked, nextStartAt := None), w.runs);
    var good := Last(forgot).chain.value.(spec := Plain(x), generation := bad.generation + 1);
    longer := Then(forgot, EditSpec(Plain(x)), Last(forgot).(chain := Some(good)));
  }

  /** The first instance has come and gone. */
  lemma {:induction false} OneToken(x: Cast, uid: string) returns (tr: Trace)
    requires Proper(x)
    ensures Run(tr) && Calm(x, Last(tr), {Manual(x.token)}, Some(17), x.token)
    ensures Last(tr).clock == 7 && Last(tr).chain.value.generation == 1 && |Last(tr).created| == 1
    ensures Last(tr).created[0].instance == Manual(x.token) && Last(tr).created[0].index == 0 && Last(tr).created[0].generation == 1
    ensures Last(tr).runs == map[Name(Manual(x.token), x.step) := ChildOf(x, Created(x), Manual(x.token), uid, 7).(phase := Succeeded)]
  {
    var installed := InstalledRun(x);
    tr := InstanceRun(installed, x, {}, None, "", Manual(x.token), uid);
    assert {} + {Manual(x.token)} == {Manual(x.token)};
  }

  /** Started by hand at 7 and on its own at 17. */
  lemma {:induction false} TwoInstances(x: Cast, one: string, two: string) returns (tr: Trace)
    requires Proper(x)
    ensures Run(tr) && Calm(x, Last(tr), {Manual(x.token), Interval(17)}, Some(27), x.token) && Last(tr).clock == 17
    ensures |Last(tr).created| == 2 && Last(tr).created[0].index == 0 && Last(tr).created[1].index == 0
    ensures Last(tr).created[0].instance == Manual(x.token) && Last(tr).created[1].instance == Interval(17)
  {
    var first := OneToken(x, one);
    var later := Then(first, Tick(10), Last(first).(clock := 17));
    assert Startable(x, Last(later), {Manual(x.token)}, Some(17), x.token, Interval(17));
    tr := InstanceRun(later, x, {Manual(x.token)}, Some(17), x.token, Interval(17), two);
    assert {Manual(x.token)} + {Interval(17)} == {Manual(x.token), Interval(17)};
  }

  /** Then an edit that is invalid for one reconcile. */
  lemma {:induction false} TwoForgotten(x: Cast, one: string, two: string) returns (tr: Trace)
    requires Proper(x)
    ensures Run(tr) && Calm(x, Last(tr), {Manual(x.token), Interval(17)}, None, x.token) && Last(tr).clock == 17
    ensures |Last(tr).created| == 2 && Last(tr).created[0].index == 0 && Last(tr).created[1].index == 0
    ensures Last(tr).created[0].instance == Manual(x.token) && Last(tr).created[1].instance == Interval(17)
  {
    tr := TwoInstances(x, one, two);
    tr := ForgottenRun(tr, x, {Manual(x.token), Interval(17)}, Some(27), x.token);
  }

  /** A chain created at 0 with interval and delay 10 is started by hand at 7 and on its
      own at 17, as due. A spec that is invalid for one reconcile then makes it start the
      instance due at 10: due times go back. */
  lemma {:induction false} ForgottenScheduleRewinds(x: Cast, one: string, two: string, three: string) returns (tr: Trace)
    requires Proper(x)
    ensures Run(tr) && |Last(tr).created| == 3
    ensures Last(tr).created[0].instance == Manual(x.token) && Last(tr).created[1].instance == Interval(17)
    ensures Last(tr).created[2].instance == Interval(10)
    ensures Last(tr).created[0].index == 0 && Last(tr).created[1].index == 0 && Last(tr).created[2].index == 0
  {
    var before := TwoForgotten(x, one, two);
    assert NextStart(Plain(x), 0, None, 17) == Some(10);
    tr := StartedRun(before, x, {Manual(x.token), Interval(17)}, None, x.token, Interval(10), three);
  }

  /** A reconcile has read the chain and is about to start its first instance. */
  lemma {:induction false} StartingRun(x: Cast, uid: string) returns (tr: Trace, w': World)
    requires Proper(x)
    ensures Run(tr) && Step(Last(tr), Act(false, uid), w') && |w'.created| > |Last(tr).created|
  {
    var installed := InstalledRun(x);
    var w := Last(installed);
    var c := w.chain.value;
    var name := Name(Manual(x.token), x.step);
    var s := StartStep(x, w, {}, None, "", Manual(x.token), uid);
    var runs := w.runs[name := ChildOf(x, c, Manual(x.token), uid, w.clock)];
    assert name in runs.Keys && name !in w.runs.Keys;
    tr := Then(installed, Load, w.(worker := Loaded(c, w.clock)));
    w' := w.(
      runs := runs, worker := Patching(s, w.clock), created := w.created + [CreationOf(c, s.active.value, w.runs)]);
    assert Acted(Last(tr), c, Write(s, runs), w.clock, w');
  }

  /** A run in which deletion is requested between the read and the creation: the child
      is created under a chain that is being deleted. */
  lemma {:induction false} CreatedAfterDeletion(x: Cast, uid: string) returns (tr: Trace)
    requires Proper(x)
    ensures Run(tr) && tr.Then? && |Last(tr).created| > |Last(tr.before).created|
    ensures Last(tr.before).chain.Some? && Last(tr.before).chain.value.deleting
  {
    var starting, w' := StartingRun(x, uid);
    var deleted, created := ChainTheorems.LateDeletionCreates(starting, Act(false, uid), w');
    tr := Then(Then(starting, DeleteChain, deleted), Act(false, uid), created);
    assert Run(tr.before);
  }

  // ----- start tokens -----

  /** The start annotation is set to another token. */
  lemma {:induction false} TokenSet(tr: Trace, x: Cast, token: string, seen: set<Instance>, next: Option<int>, last: string)
    returns (longer: Trace)
    requires Run(tr) && Calm(x, Last(tr), seen, next, last)
    ensures Run(longer) && Calm(x.(token := token), Last(longer), seen, next, last)
    ensures longer == Then(tr, RequestStart(token), Last(longer))
    ensures Last(longer) == Last(tr).(chain := Some(Last(tr).chain.value.(startToken := token)))
  {
    longer := Then(tr, RequestStart(token), Last(tr).(chain := Some(Last(tr).chain.value.(startToken := token))));
  }

  /** Then that of another token. */
  lemma {:induction false} TwoTokens(x: Cast, other: string, one: string, two: string) returns (tr: Trace)
    requires Proper(x) && Proper(x.(token := other)) && other != x.token
    ensures Run(tr) && Calm(x.(token := other), Last(tr), {Manual(x.token), Manual(other)}, Some(17), other)
    ensures Last(tr).clock == 7 && Last(tr).chain.value.generation == 1 && |Last(tr).created| == 2
    ensures Last(tr).created[0].instance == Manual(x.token) && Last(tr).created[0].index == 0 && Last(tr).created[0].generation == 1
    ensures Last(tr).runs.Keys == {Name(Manual(x.token), x.step), Name(Manual(other), x.step)}
    ensures Last(tr).runs[Name(Manual(x.token), x.step)] == ChildOf(x, Created(x), Manual(x.token), one, 7).(phase := Succeeded)
  {
    var first := OneToken(x, one);
    var asked := TokenSet(first, x, other, {Manual(x.token)}, Some(17), x.token);
    tr := InstanceRun(asked, x.(token := other), {Manual(x.token)}, Some(17), x.token, Manual(other), two);
    assert {Manual(x.token)} + {Manual(other)} == {Manual(x.token), Manual(other)};
  }

  /** A ready chain whose token names an old instance takes its first child over. */
  lemma {:induction false} ReadyRestarts(x: Cast, c: Chain, runs: map<Name, Child>, uid: string, was: Child, now: int)
    requires Proper(x) && Ready(x, c) && AllDone(runs) && c.status.lastStartToken != x.token
    requires Name(Manual(x.token), x.step) in runs && runs[Name(Manual(x.token), x.step)] == was
    requires SameChild(was, ChildOf(x, c, Manual(x.token), uid, now))
    requires forall n :: n in runs && runs[n].instance == Manual(x.token) ==> n == Name(Manual(x.token), x.step)
    ensures var o := Reconcile(c, false, runs, uid, now);
      && o.Write? && o.runs == runs && o.status.active.Some? && o.status.active.value.instance == Manual(x.token)
  {
    PlainValid(x);
    assert UnfinishedRuns(runs, x.uid) == {};
    assert Reconcile(c, false, runs, uid, now) == Start(c, c.status, x.application, runs, uid, now);
    ChainRelease.ReusedTokenRevives(c, x.application, runs, uid, now, x.token);
  }

  /** A run that uses a start token, another one, and the first one again: the released
      instance is active once more, on its old child. */
  lemma {:induction false} ReusedTokenRun(x: Cast, other: string, one: string, two: string) returns (released: Trace, tr: Trace)
    requires Proper(x) && Proper(x.(token := other)) && other != x.token
    ensures Run(released) && ChainRelease.Away(Last(released), Manual(x.token))
    ensures Run(tr) && !ChainRelease.Away(Last(tr), Manual(x.token))
    ensures tr.Then? && tr.before.Then? && tr.before.before.Then? && tr.before.before.before == released
    ensures Last(tr).created == Last(released).created
  {
    var before := TwoTokens(x, other, one, two);
    released := TokenSet(before, x.(token := other), x.token, {Manual(x.token), Manual(other)}, Some(17), other);
    var w := Last(released);
    var name := Name(Manual(x.token), x.step);
    assert x.(token := other).(token := x.token) == x;
    ReadyRestarts(x, w.chain.value, w.runs, one, w.runs[name], w.clock);
    var o := Reconcile(w.chain.value, false, w.runs, one, w.clock);
    tr := Cycle(released, one, o.status, o.runs);
  }

  /** A child is deleted and the spec edited: the chain moves to the next generation. */
  lemma {:induction false} DeletedAndEdited(x: Cast, other: string, one: string, two: string) returns (tr: Trace)
    requires Proper(x) && Proper(x.(token := other)) && other != x.token
    ensures Run(tr) && Calm(x.(token := other), Last(tr), {Manual(other)}, Some(17), other)
    ensures Last(tr).clock == 7 && Last(tr).chain.value.generation == 2 && |Last(tr).created| == 2
    ensures Last(tr).created[0].instance == Manual(x.token) && Last(tr).created[0].index == 0 && Last(tr).created[0].generation == 1
  {
    var before := TwoTokens(x, other, one, two);
    var w := Last(before);
    var name := Name(Manual(x.token), x.step);
    var deleted := Then(before, DeleteRun(name), w.(runs := w.runs - {name}));
    assert Run(deleted);
    tr := Then(deleted, EditSpec(Plain(x)), Last(deleted).(chain := Some(w.chain.value.(generation := 2))));
  }

  /** A run in which an instance whose only child was deleted is started again after an
      edit: it gets a second first child, of another generation. */
  lemma {:induction false} DeletedChildThaws(x: Cast, other: string, one: string, two: string, three: string) returns (tr: Trace)
    requires Proper(x) && Proper(x.(token := other)) && other != x.token
    ensures Run(tr) && |Last(tr).created| == 3
    ensures Last(tr).created[0].instance == Last(tr).created[2].instance && Last(tr).created[0].index == Last(tr).created[2].index
    ensures Last(tr).created[0].generation != Last(tr).created[2].generation
  {
    var before := DeletedAndEdited(x, other, one, two);
    var asked := TokenSet(before, x.(token := other), x.token, {Manual(other)}, Some(17), other);
    assert x.(token := other).(token := x.token) == x;
    tr := StartedRun(asked, x, {Manual(other)}, Some(17), other, Manual(x.token), three);
  }
}
