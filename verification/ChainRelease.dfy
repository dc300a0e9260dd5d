/** After an instance was released: unless a crash loses the status that points to one of
    its children, it gets no further child until it is asked for again. */
module ChainRelease {
  import opened Strings
  import opened AgentRuns
  import opened ChainTypes
  import opened ChainCadence
  import opened ChainSpec
  import opened ChainEffects
  import opened ChainRuns
  import ChainTheorems

  // ----- lost statuses -----

  /** A child of the instance can be unfinished only if it is the active one. */
  ghost predicate Tight(active: Option<Active>, held: set<Name>, instance: Instance) {
    forall n :: n in held && n.instance == instance ==> active.Some? && n == Here(active.value)
  }

  /** What counts is the status about to be written, if there is one. */
  ghost predicate Sound(w: World, instance: Instance) {
    var held := UnfinishedRuns(w.runs, w.uid);
    if w.worker.Patching? then Tight(w.worker.status.active, held, instance)
    else w.chain.Some? ==> Tight(w.chain.value.status.active, held, instance)
  }

  /** A crash before the patch of a status whose active child, of this instance and
      unfinished, is not the one that the stored status points to. */
  predicate Loses(w: World, a: Action, instance: Instance) {
    && a.Crash? && w.worker.Patching? && w.chain.Some?
    && w.worker.status.active.Some? && w.worker.status.active.value.instance == instance
    && var name := Here(w.worker.status.active.value);
       && name in UnfinishedRuns(w.runs, w.uid)
       && (w.chain.value.status.active.None? || Here(w.chain.value.status.active.value) != name)
  }

  lemma {:induction false} EffectTight(
    c: Chain, active: Option<Active>, runs: map<Name, Child>, runs': map<Name, Child>, instance: Instance)
    requires Effect(c, runs, active, runs') && Tight(c.status.active, UnfinishedRuns(runs, c.uid), instance)
    requires c.status.active.Some? ==> c.status.active.value.ref == Some(Here(c.status.active.value))
    requires ChainTheorems.Keyed(runs, c.uid)
    ensures Tight(active, UnfinishedRuns(runs', c.uid), instance)
    ensures c.status.active.None? && active.Some? && active.value.instance == instance ==> UnfinishedRuns(runs, c.uid) == {}
  {
    if active.Some? && Takes(c.uid, active.value, runs, runs') {
      ChainTheorems.TakesHeld(c.uid, active.value, runs, runs');
    }
  }

  lemma {:induction false} ActedSound(w: World, o: Outcome, w': World, instance: Instance)
    requires ChainTheorems.Sound(w) && Sound(w, instance) && w.worker.Loaded?
    requires ChainTheorems.Warranted(w.worker.copy, w.runs, o) && Acted(w, w.worker.copy, o, w.worker.now, w')
    ensures Sound(w', instance)
  {
    if o.Write? {
      EffectTight(w.worker.copy, o.status.active, w.runs, o.runs, instance);
    }
  }

  lemma {:induction false} ActSound(w: World, a: Action, w': World, instance: Instance)
    requires ChainTheorems.Sound(w) && Sound(w, instance) && a.Act? && WorkerStep(w, a, w')
    ensures Sound(w', instance)
  {
    var o := Reconcile(w.worker.copy, a.paused, w.runs, a.uid, w.worker.now);
    ChainTheorems.ReconcileWarranted(w.worker.copy, a.paused, w.runs, a.uid, w.worker.now);
    ActedSound(w, o, w', instance);
  }

  lemma {:induction false} CrashExactly(w: World, w': World, instance: Instance)
    requires Sound(w, instance) && WorkerStep(w, Crash, w')
    ensures Sound(w', instance) <==> !Loses(w, Crash, instance)
  {
  }

  lemma {:induction false} UserSound(w: World, a: Action, w': World, instance: Instance)
    requires Sound(w, instance) && ChainStep(w, a, w')
    ensures Sound(w', instance)
  {
  }

  lemma {:induction false} PatchSound(w: World, a: Action, w': World, instance: Instance)
    requires Sound(w, instance) && WorkerStep(w, a, w') && !a.Act? && !a.Crash?
    ensures Sound(w', instance)
  {
  }

  lemma {:induction false} StepExactly(w: World, a: Action, w': World, instance: Instance)
    requires ChainTheorems.Sound(w) && Sound(w, instance) && Step(w, a, w')
    ensures Sound(w', instance) <==> !Loses(w, a, instance)
  {
    if ChainStep(w, a, w') {
      UserSound(w, a, w', instance);
    } else if RunStep(w, a, w') {
      ChainTheorems.RunsShrink(w, a, w');
    } else if a.Act? {
      ActSound(w, a, w', instance);
    } else if a.Crash? {
      CrashExactly(w, w', instance);
    } else {
      PatchSound(w, a, w', instance);
    }
  }

  ghost predicate AlwaysTight(tr: Trace, instance: Instance) {
    Sound(Last(tr), instance) && (tr.Then? ==> AlwaysTight(tr.before, instance))
  }

  ghost predicate NoneLost(tr: Trace, instance: Instance) {
    tr.Then? ==> NoneLost(tr.before, instance) && !Loses(Last(tr.before), tr.action, instance)
  }

  /** Exactly: in every run, the unfinished child of an instance is always the active one,
      stored or about to be, if and only if no crash loses a status that points to it. */
  lemma {:induction false} TightExactly(tr: Trace, instance: Instance)
    requires Run(tr)
    ensures AlwaysTight(tr, instance) <==> NoneLost(tr, instance)
  {
    if tr.Then? {
      TightExactly(tr.before, instance);
      ChainTheorems.RunSound(tr.before);
      if AlwaysTight(tr.before, instance) {
        StepExactly(Last(tr.before), tr.action, tr.world, instance);
      }
    }
  }

  // ----- asking for an instance -----

  /** The chain as read asks for this instance: by its start token, or because it is due. */
  predicate Requests(c: Chain, now: int, instance: Instance) {
    match instance
    case Manual(token) => StartToken(c, c.status) == Some(token)
    case Interval(dueAt) =>
      StartToken(c, c.status).None? && NextStart(c.spec, c.createdAt, c.status.nextStartAt, now) == Some(dueAt)
  }

  lemma StartRequested(c: Chain, s: Status, app: string, runs: map<Name, Child>, uid: string, now: int)
    requires c.spec.workflow.steps != [] && s.active.None?
    requires s.nextStartAt == c.status.nextStartAt && s.lastStartToken == c.status.lastStartToken
    requires Start(c, s, app, runs, uid, now).Write? && Start(c, s, app, runs, uid, now).status.active.Some?
    ensures Requests(c, now, Start(c, s, app, runs, uid, now).status.active.value.instance)
  {
  }

  /** With nothing unfinished, a reconcile makes only a requested instance active. */
  lemma {:induction false} ReconcileRequested(c: Chain, paused: bool, runs: map<Name, Child>, uid: string, now: int)
    requires c.status.active.None? && UnfinishedRuns(runs, c.uid) == {}
    requires var o := Reconcile(c, paused, runs, uid, now); o.Write? && o.status.active.Some?
    ensures Requests(c, now, Reconcile(c, paused, runs, uid, now).status.active.value.instance)
  {
    var asked := c.cancel != NoCancel && c.cancel != c.status.lastCancelToken;
    var noted := if asked then c.status.(lastCancelToken := c.cancel) else c.status;
    if ValidSpec(c.spec) && !c.spec.suspend && Application(c.spec.workflow).Some? && !paused && !c.deleting && c.finalizer {
      StartRequested(c, noted, Application(c.spec.workflow).value, runs, uid, now);
    }
  }

  // ----- released for good -----

  /** The instance is neither active nor about to become so. */
  predicate Away(w: World, instance: Instance) {
    && (w.chain.Some? && w.chain.value.status.active.Some? ==> w.chain.value.status.active.value.instance != instance)
    && (w.worker.Patching? && w.worker.status.active.Some? ==> w.worker.status.active.value.instance != instance)
  }

  predicate Asks(w: World, a: Action, instance: Instance) {
    a.Act? && w.worker.Loaded? && w.worker.copy.status.active.None? && Requests(w.worker.copy, w.worker.now, instance)
  }

  /** At most one child more, and none of this instance. */
  predicate Spares(created: seq<Creation>, created': seq<Creation>, instance: Instance) {
    created' == created
    || (|created'| == |created| + 1 && created' == created + [created'[|created|]] && created'[|created|].instance != instance)
  }

  lemma {:induction false} ActedAway(w: World, o: Outcome, w': World, instance: Instance)
    requires ChainTheorems.Sound(w) && Away(w, instance) && w.worker.Loaded?
    requires ChainTheorems.Warranted(w.worker.copy, w.runs, o) && Acted(w, w.worker.copy, o, w.worker.now, w')
    requires o.Write? && w.worker.copy.status.active.None? && o.status.active.Some? ==>
      o.status.active.value.instance != instance
    ensures Away(w', instance) && Spares(w.created, w'.created, instance)
  {
  }

  lemma {:induction false} ActAway(w: World, a: Action, w': World, instance: Instance)
    requires ChainTheorems.Sound(w) && Sound(w, instance) && Away(w, instance) && a.Act? && WorkerStep(w, a, w') && !Asks(w, a, instance)
    ensures Away(w', instance) && Spares(w.created, w'.created, instance)
  {
    var c := w.worker.copy;
    var o := Reconcile(c, a.paused, w.runs, a.uid, w.worker.now);
    ChainTheorems.ReconcileWarranted(c, a.paused, w.runs, a.uid, w.worker.now);
    if o.Write? && c.status.active.None? && o.status.active.Some? && o.status.active.value.instance == instance {
      EffectTight(c, o.status.active, w.runs, o.runs, instance);
      ReconcileRequested(c, a.paused, w.runs, a.uid, w.worker.now);
    }
    ActedAway(w, o, w', instance);
  }

  lemma {:induction false} OtherAway(w: World, a: Action, w': World, instance: Instance)
    requires Away(w, instance) && Step(w, a, w') && !a.Act?
    ensures Away(w', instance) && w'.created == w.created
  {
  }

  lemma {:induction false} StepAway(w: World, a: Action, w': World, instance: Instance)
    requires ChainTheorems.Sound(w) && Sound(w, instance) && Away(w, instance) && Step(w, a, w') && !Asks(w, a, instance)
    ensures Away(w', instance) && Spares(w.created, w'.created, instance)
  {
    if a.Act? {
      ActAway(w, a, w', instance);
    } else {
      OtherAway(w, a, w', instance);
    }
  }

  /** From `earlier` on no reconcile reads a chain that asks for the instance. */
  ghost predicate NotAsked(tr: Trace, earlier: Trace, instance: Instance) {
    tr == earlier || (tr.Then? && NotAsked(tr.before, earlier, instance) && !Asks(Last(tr.before), tr.action, instance))
  }

  ghost predicate NoneOf(created: seq<Creation>, from: nat, instance: Instance) {
    forall i :: from <= i < |created| ==> created[i].instance != instance
  }

  /** In every run that loses no status pointing to an unfinished child of the instance:
      once it is not active and is not asked for again, it is never active again and
      gets no further child. */
  lemma {:induction false} ReleasedForGood(tr: Trace, earlier: Trace, instance: Instance)
    requires Run(tr) && NoneLost(tr, instance) && NotAsked(tr, earlier, instance) && Away(Last(earlier), instance)
    ensures Away(Last(tr), instance) && |Last(earlier).created| <= |Last(tr).created|
    ensures NoneOf(Last(tr).created, |Last(earlier).created|, instance)
  {
    if tr != earlier {
      ReleasedForGood(tr.before, earlier, instance);
      TightExactly(tr.before, instance);
      ChainTheorems.RunSound(tr.before);
      StepAway(Last(tr.before), tr.action, tr.world, instance);
    }
  }

  // ----- the two ways back -----

  /** The reconcile has read a chain with nothing active, whose only unfinished child is
      one of the instance. */
  ghost predicate Orphaned(w: World, instance: Instance) {
    && w.worker.Loaded? && w.worker.copy.status.active.None?
    && exists n :: n in w.runs && w.runs[n].instance == instance && UnfinishedRuns(w.runs, w.uid) == {n}
  }

  lemma {:induction false} ActedReturns(w: World, o: Outcome, w': World, instance: Instance)
    requires ChainTheorems.Sound(w) && Away(w, instance) && w.worker.Loaded?
    requires ChainTheorems.Warranted(w.worker.copy, w.runs, o) && Acted(w, w.worker.copy, o, w.worker.now, w')
    requires !Away(w', instance)
    ensures w.worker.copy.status.active.None? && o.Write? && o.status.active.Some? && o.status.active.value.instance == instance
    ensures Orphaned(w, instance) || UnfinishedRuns(w.runs, w.uid) == {}
  {
  }

  /** In every run, whatever it loses: a step that brings an instance back is a reconcile
      that read a request for it or that recovers an unfinished child of it. */
  lemma {:induction false} ReturnsOnlyBy(tr: Trace, a: Action, w': World, instance: Instance)
    requires Run(tr) && Step(Last(tr), a, w') && Away(Last(tr), instance) && !Away(w', instance)
    ensures a.Act? && (Asks(Last(tr), a, instance) || Orphaned(Last(tr), instance))
  {
    var w := Last(tr);
    ChainTheorems.RunSound(tr);
    if !a.Act? {
      OtherAway(w, a, w', instance);
    } else {
      var c := w.worker.copy;
      ChainTheorems.ReconcileWarranted(c, a.paused, w.runs, a.uid, w.worker.now);
      ActedReturns(w, Reconcile(c, a.paused, w.runs, a.uid, w.worker.now), w', instance);
      if UnfinishedRuns(w.runs, w.uid) == {} {
        ReconcileRequested(c, a.paused, w.runs, a.uid, w.worker.now);
      }
    }
  }

  /** Asking again with an old start token does revive its instance: with nothing
      unfinished and its old first child unchanged, it becomes active once more. */
  lemma {:induction false} ReusedTokenRevives(c: Chain, app: string, runs: map<Name, Child>, uid: string, now: int, token: string)
    requires c.spec.workflow.steps != [] && StartToken(c, c.status) == Some(token)
    requires !Collides(runs, Manual(token), c.generation, c.spec.workflow)
    requires Name(Manual(token), c.spec.workflow.steps[0].name) in runs
    requires Start(c, c.status, app, runs, uid, now).Write?
    ensures var o := Start(c, c.status, app, runs, uid, now);
      && o.runs == runs && o.status.active.Some? && o.status.active.value.instance == Manual(token)
  {
    var name := Name(Manual(token), c.spec.workflow.steps[0].name);
    assert runs[name := runs[name]] == runs;
  }

  /** A crash is the other way back: the only unfinished child of a chain with nothing
      active is recovered, and its instance is active again, whether or not it was
      cancelled before. */
  lemma {:induction false} OrphanRecovered(c: Chain, runs: map<Name, Child>, uid: string, now: int, name: Name)
    requires !c.deleting && c.finalizer && ValidSpec(c.spec) && !c.spec.suspend && Application(c.spec.workflow).Some?
    requires c.status.active.None? && UnfinishedRuns(runs, c.uid) == {name} && name in runs && Recoverable(runs[name])
    ensures var o := Reconcile(c, false, runs, uid, now);
      && o.Write? && o.runs == runs && o.status.active.Some? && o.status.active.value.instance == runs[name].instance
      && o.status.active.value.ref == Some(name) && o.status.cancelRequested == c.status.cancelRequested
  {
    assert |{name}| == 1;
  }
}
