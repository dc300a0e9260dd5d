/** The cadence of automatic starts over every run in which the spec stays valid and
    its interval and initial delay stay fixed. */
module CadenceTheorems {
  import opened Strings
  import opened AgentRuns
  import opened ChainTypes
  import opened ChainCadence
  import opened ChainSpec
  import opened ChainEffects
  import opened ChainRuns
  import ChainHistory
  import ChainTheorems

  // ----- what a reconcile does to the schedule -----

  function Scheduled(c: Chain, now: int): Option<int> {
    NextStart(c.spec, c.createdAt, c.status.nextStartAt, now)
  }

  /** The schedule stays, moves to the computed start or past it, or to a time not before now. */
  ghost predicate Moves(c: Chain, next: Option<int>, now: int) {
    next == c.status.nextStartAt
    || (next.Some?
        && (next.value >= now
            || next == Scheduled(c, now)
            || (Scheduled(c, now).Some? && next.value == Scheduled(c, now).value + c.spec.interval)))
  }

  /** A new automatic instance is the one scheduled, and it is due. */
  ghost predicate OnTime(c: Chain, s: Status, now: int) {
    s.active.Some? && s.active.value.instance.Interval? ==>
      Scheduled(c, now) == Some(s.active.value.instance.dueAt) && s.active.value.instance.dueAt <= now
  }

  ghost predicate Punctual(c: Chain, runs: map<Name, Child>, o: Outcome, now: int) {
    o.Write? ==>
      && Moves(c, o.status.nextStartAt, now)
      && (c.status.active.None? && o.runs.Keys != runs.Keys ==> OnTime(c, o.status, now))
  }

  lemma LaunchPunctual(c: Chain, s: Status, app: string, runs: map<Name, Child>, uid: string, now: int)
    requires c.spec.workflow.steps != [] && s.active.None?
    requires s.nextStartAt == c.status.nextStartAt && c.spec.interval >= 0
    ensures Punctual(c, runs, Start(c, s, app, runs, uid, now), now)
  {
  }

  lemma FollowPunctual(
    c: Chain, s: Status, k: nat, current: Child, app: string, runs: map<Name, Child>, uid: string, now: int)
    requires s.active.Some? && s.active.value.digest.Some? && k < |c.spec.workflow.steps|
    requires s.nextStartAt == c.status.nextStartAt && c.status.active.Some?
    ensures Punctual(c, runs, Follow(c, s, k, current, app, runs, uid, now), now)
  {
  }

  lemma {:induction false} DrivePunctual(c: Chain, app: string, runs: map<Name, Child>, uid: string, now: int)
    requires c.spec.workflow.steps != [] && c.spec.interval >= 0
    ensures Punctual(c, runs, Drive(c, c.status, app, runs, uid, now), now)
  {
    var s := c.status;
    var asked := c.cancel != NoCancel && c.cancel != s.lastCancelToken;
    var noted := if asked then s.(lastCancelToken := c.cancel) else s;
    if s.active.None? {
      LaunchPunctual(c, noted, app, runs, uid, now);
    } else {
      var a := s.active.value;
      var k := StepAt(c.spec.workflow.steps, Trim(a.step));
      var current := RunByRef(c, a, a.step, a.ref, a.uid, runs);
      if a.generation != 0 && a.digest == Some(c.spec.workflow) && k < |c.spec.workflow.steps| && current.Some? {
        var recorded := noted.(stepRuns := Upsert(s.stepRuns, RecordOf(a, a.step, a.ref.value, current.value)));
        FollowPunctual(c, recorded, k, current.value, app, runs, uid, now);
      }
    }
  }

  lemma RecoveredPunctual(c: Chain, s: Status, name: Name, run: Child, now: int)
    requires s.nextStartAt == c.status.nextStartAt
    ensures Moves(c, Recovered(c, s, name, run, now).nextStartAt, now)
  {
  }

  lemma {:induction false} ResumePunctual(c: Chain, app: string, runs: map<Name, Child>, uid: string, now: int)
    requires c.spec.workflow.steps != [] && c.spec.interval >= 0
    ensures Punctual(c, runs, Resume(c, c.status, app, runs, uid, now), now)
  {
    var held := UnfinishedRuns(runs, c.uid);
    if c.status.active.Some? || held == {} {
      DrivePunctual(c, app, runs, uid, now);
    } else if |held| <= 1 {
      forall name | name in held ensures Moves(c, Recovered(c, c.status, name, runs[name], now).nextStartAt, now) {
        RecoveredPunctual(c, c.status, name, runs[name], now);
      }
    }
  }

  lemma {:induction false} ReconcilePunctual(c: Chain, paused: bool, runs: map<Name, Child>, uid: string, now: int)
    requires ValidSpec(c.spec) && Application(c.spec.workflow).Some?
    ensures Punctual(c, runs, Reconcile(c, paused, runs, uid, now), now)
  {
    ResumePunctual(c, Application(c.spec.workflow).value, runs, uid, now);
  }

  // ----- runs -----

  datatype Cadence = Cadence(base: int, interval: int)

  function CadenceOf(c: Chain): Cadence {
    Cadence(FirstStart(c.spec, c.createdAt), c.spec.interval)
  }

  ghost predicate Fixed(spec: Spec, interval: int, delay: int) {
    ValidSpec(spec) && Application(spec.workflow).Some? && spec.interval == interval && spec.delay == delay
  }

  /** The spec is valid throughout and its cadence fields never change. */
  ghost predicate Regular(tr: Trace) {
    if tr.Begin? then ValidSpec(tr.chain.spec) && Application(tr.chain.spec.workflow).Some?
    else
      && Regular(tr.before)
      && (tr.action.EditSpec? ==> Fixed(tr.action.spec, Origin(tr).spec.interval, Origin(tr).spec.delay))
  }

  /** The chain as it was created. */
  function Origin(tr: Trace): Chain {
    if tr.Begin? then tr.chain else Origin(tr.before)
  }

  /** The due time of a created automatic instance; None for manual ones and later steps. */
  function Due(e: Creation): Option<int> {
    if e.index == 0 && e.instance.Interval? then Some(e.instance.dueAt) else None
  }

  /** A due time that has come, and that the schedule will not go back before. */
  ghost predicate Passed(d: int, next: Option<int>, k: Cadence, now: int) {
    && d <= now && k.interval > 0
    && (next.Some? ==> d <= next.value) && (next.None? ==> d <= Boundary(k.base, k.interval, now))
  }

  ghost predicate AllPassed(created: seq<Creation>, next: Option<int>, k: Cadence, now: int) {
    forall i :: 0 <= i < |created| && Due(created[i]).Some? ==> Passed(Due(created[i]).value, next, k, now)
  }

  ghost predicate Increasing(created: seq<Creation>) {
    forall i, j :: 0 <= i < j < |created| && Due(created[i]).Some? && Due(created[j]).Some? ==>
      Due(created[i]).value <= Due(created[j]).value
  }

  ghost predicate Keeps(c: Chain, origin: Chain) {
    Fixed(c.spec, origin.spec.interval, origin.spec.delay) && c.createdAt == origin.createdAt
  }

  ghost predicate Sound(w: World, origin: Chain) {
    && Increasing(w.created)
    && (w.chain.Some? ==>
          Keeps(w.chain.value, origin) && AllPassed(w.created, w.chain.value.status.nextStartAt, CadenceOf(origin), w.clock))
    && match w.worker
       case Resting => true
       case Finalizing(_) => true
       case Loaded(copy, now) =>
         && Keeps(copy, origin) && now <= w.clock
         && AllPassed(w.created, copy.status.nextStartAt, CadenceOf(origin), now)
       case Patching(s, now) => AllPassed(w.created, s.nextStartAt, CadenceOf(origin), w.clock)
  }

  lemma {:induction false} PassedLater(d: int, next: Option<int>, k: Cadence, now: int, later: int)
    requires Passed(d, next, k, now) && now <= later
    ensures Passed(d, next, k, later)
  {
    BoundaryMonotone(k.base, k.interval, now, later);
  }

  lemma {:induction false} AllPassedLater(created: seq<Creation>, next: Option<int>, k: Cadence, now: int, later: int)
    requires AllPassed(created, next, k, now) && now <= later
    ensures AllPassed(created, next, k, later)
  {
    forall i | 0 <= i < |created| && Due(created[i]).Some? ensures Passed(Due(created[i]).value, next, k, later) {
      PassedLater(Due(created[i]).value, next, k, now, later);
    }
  }

  lemma AllPassedMoves(created: seq<Creation>, c: Chain, next: Option<int>, now: int)
    requires AllPassed(created, c.status.nextStartAt, CadenceOf(c), now) && Moves(c, next, now)
    ensures AllPassed(created, next, CadenceOf(c), now)
  {
  }

  /** A new start: the scheduled one, not before any earlier one. */
  lemma StartPassed(created: seq<Creation>, e: Creation, c: Chain, next: Option<int>, now: int)
    requires AllPassed(created, c.status.nextStartAt, CadenceOf(c), now) && Increasing(created) && Moves(c, next, now)
    requires Due(e).Some? ==> Scheduled(c, now) == Due(e) && Due(e).value <= now
    ensures Increasing(created + [e])
    ensures AllPassed(created + [e], c.status.nextStartAt, CadenceOf(c), now)
    ensures AllPassed(created + [e], next, CadenceOf(c), now)
  {
  }

  /** The entry of a new child is a due automatic start or no start. */
  lemma EntryOnTime(c: Chain, s: Status, runs: map<Name, Child>, runs': map<Name, Child>, now: int)
    requires Effect(c, runs, s.active, runs') && runs'.Keys != runs.Keys && ValidSpec(c.spec)
    requires c.status.active.None? ==> OnTime(c, s, now)
    ensures s.active.Some? && s.active.value.digest.Some?
    ensures var e := CreationOf(c, s.active.value, runs);
      Due(e).Some? ==> Scheduled(c, now) == Due(e) && Due(e).value <= now
  {
  }

  lemma {:induction false} ActedSound(w: World, o: Outcome, w': World, origin: Chain)
    requires Sound(w, origin) && w.worker.Loaded? && Acted(w, w.worker.copy, o, w.worker.now, w')
    requires var (c, now) := (w.worker.copy, w.worker.now);
      && Punctual(c, w.runs, o, now)
      && (o.Write? ==> Effect(c, w.runs, o.status.active, o.runs) && w.chain.Some? && w.chain.value.status == c.status)
    ensures Sound(w', origin)
  {
    if o.Write? {
      var (c, now) := (w.worker.copy, w.worker.now);
      var (k, s) := (CadenceOf(c), o.status);
      assert k == CadenceOf(origin);
      if o.runs.Keys == w.runs.Keys {
        AllPassedMoves(w.created, c, s.nextStartAt, now);
      } else {
        EntryOnTime(c, s, w.runs, o.runs, now);
        StartPassed(w.created, CreationOf(c, s.active.value, w.runs), c, s.nextStartAt, now);
      }
      AllPassedLater(w'.created, s.nextStartAt, k, now, w.clock);
      AllPassedLater(w'.created, c.status.nextStartAt, k, now, w.clock);
    }
  }

  lemma {:induction false} ActSound(w: World, a: Action, w': World, origin: Chain)
    requires ChainTheorems.Sound(w) && Sound(w, origin) && a.Act? && WorkerStep(w, a, w')
    ensures Sound(w', origin)
  {
    var (c, now) := (w.worker.copy, w.worker.now);
    var o := Reconcile(c, a.paused, w.runs, a.uid, now);
    ReconcilePunctual(c, a.paused, w.runs, a.uid, now);
    if o.Write? {
      ReconcileEffect(c, a.paused, w.runs, a.uid, now);
    }
    ActedSound(w, o, w', origin);
  }

  lemma EditSound(w: World, a: Action, w': World, origin: Chain)
    requires Sound(w, origin) && ChainStep(w, a, w')
    requires a.EditSpec? ==> Fixed(a.spec, origin.spec.interval, origin.spec.delay)
    ensures Sound(w', origin)
  {
  }

  lemma {:induction false} RunStepSound(w: World, a: Action, w': World, origin: Chain)
    requires Sound(w, origin) && RunStep(w, a, w')
    ensures Sound(w', origin)
  {
    if a.Tick? {
      if w.chain.Some? {
        AllPassedLater(w.created, w.chain.value.status.nextStartAt, CadenceOf(origin), w.clock, w'.clock);
      }
      if w.worker.Patching? {
        AllPassedLater(w.created, w.worker.status.nextStartAt, CadenceOf(origin), w.clock, w'.clock);
      }
    }
  }

  lemma PatchSound(w: World, a: Action, w': World, origin: Chain)
    requires Sound(w, origin) && WorkerStep(w, a, w') && !a.Act?
    ensures Sound(w', origin)
  {
  }

  lemma {:induction false} RunSound(tr: Trace)
    requires Run(tr) && Regular(tr)
    ensures Sound(Last(tr), Origin(tr))
  {
    if tr.Then? {
      RunSound(tr.before);
      if tr.action.Act? {
        ChainTheorems.RunSound(tr.before);
        ActSound(Last(tr.before), tr.action, tr.world, Origin(tr));
      } else if ChainStep(Last(tr.before), tr.action, tr.world) {
        EditSound(Last(tr.before), tr.action, tr.world, Origin(tr));
      } else if RunStep(Last(tr.before), tr.action, tr.world) {
        RunStepSound(Last(tr.before), tr.action, tr.world, Origin(tr));
      } else {
        PatchSound(Last(tr.before), tr.action, tr.world, Origin(tr));
      }
    }
  }

  // ----- the theorem -----

  /** Cadence: automatic instances are started at or after their due times, and the
      due times of distinct instances strictly increase in the order they start. */
  lemma {:induction false} CadenceIncreases(tr: Trace, i: nat, j: nat)
    requires Run(tr) && Regular(tr) && i < j < |Last(tr).created|
    requires Due(Last(tr).created[i]).Some? && Due(Last(tr).created[j]).Some?
    requires Last(tr).created[i].instance != Last(tr).created[j].instance
    ensures Due(Last(tr).created[i]).value < Due(Last(tr).created[j]).value
  {
    RunSound(tr);
  }

  lemma ActedOnTime(w: World, o: Outcome, w': World)
    requires w.worker.Loaded? && Acted(w, w.worker.copy, o, w.worker.now, w')
    requires |w'.created| > |w.created| && Due(w'.created[|w'.created| - 1]).Some? && ValidSpec(w.worker.copy.spec)
    requires Punctual(w.worker.copy, w.runs, o, w.worker.now)
    requires o.Write? ==> Effect(w.worker.copy, w.runs, o.status.active, o.runs)
    ensures Due(w'.created[|w'.created| - 1]).value <= w.worker.now
  {
  }

  /** The reconcile that starts an automatic instance read the clock at or after its due time. */
  lemma {:induction false} StartedWhenDue(tr: Trace, a: Action, w': World)
    requires Run(tr) && Regular(tr) && Step(Last(tr), a, w') && |w'.created| > |Last(tr).created|
    requires Due(w'.created[|w'.created| - 1]).Some?
    ensures Last(tr).worker.Loaded?
    ensures Due(w'.created[|w'.created| - 1]).value <= Last(tr).worker.now <= Last(tr).clock
  {
    var w := Last(tr);
    RunSound(tr);
    assert a.Act?;
    var (c, now) := (w.worker.copy, w.worker.now);
    var o := Reconcile(c, a.paused, w.runs, a.uid, now);
    ReconcilePunctual(c, a.paused, w.runs, a.uid, now);
    if o.Write? {
      ReconcileEffect(c, a.paused, w.runs, a.uid, now);
    }
    ActedOnTime(w, o, w');
  }

  // ----- invalid specs -----

  /** Reconciling an invalid spec forgets the schedule. */
  lemma InvalidSpecForgets(c: Chain, paused: bool, runs: map<Name, Child>, uid: string, now: int)
    requires !c.deleting && c.finalizer && (!ValidSpec(c.spec) || (!c.spec.suspend && Application(c.spec.workflow).None?))
    ensures Reconcile(c, paused, runs, uid, now) == Write(c.status.(phase := Blocked, nextStartAt := None), runs)
  {
  }

  /** With the schedule forgotten, the next automatic start is due at the last deadline
      counted from the chain's creation: after an earlier start at `d` if and only if
      such a deadline has passed since `d`. */
  lemma {:induction false} ForgottenStart(c: Chain, paused: bool, runs: map<Name, Child>, uid: string, now: int, d: int)
    requires ValidSpec(c.spec) && Application(c.spec.workflow).Some?
    requires c.status.nextStartAt.None? && c.status.active.None?
    requires var o := Reconcile(c, paused, runs, uid, now);
      o.Write? && o.runs.Keys != runs.Keys && o.status.active.Some? && o.status.active.value.instance.Interval?
    ensures c.spec.interval > 0
    ensures var due := Reconcile(c, paused, runs, uid, now).status.active.value.instance.dueAt;
      && due == Boundary(FirstStart(c.spec, c.createdAt), c.spec.interval, now) && due <= now
      && (d < due <==> exists k :: k >= 0 && d < Deadline(FirstStart(c.spec, c.createdAt), c.spec.interval, k) <= now)
  {
    ReconcilePunctual(c, paused, runs, uid, now);
    BoundaryLast(FirstStart(c.spec, c.createdAt), c.spec.interval, now, d);
  }
}
