/** What holds in every run of an agent chain: Forbid (one unfinished child at most),
    a frozen workflow per instance, steps created in order behind their gates, and a
    chain that disappears only when it is drained. */
module ChainTheorems {
  import opened Strings
  import opened AgentRuns
  import opened ChainTypes
  import opened ChainSpec
  import opened ChainEffects
  import opened ChainRuns

  // ----- Forbid -----

  /** The child of the step after the active one. */
  function Next(a: Active): Option<Name> {
    if a.digest.None? then None
    else
      var steps := a.digest.value.steps;
      var k := StepAt(steps, a.step);
      if k + 1 < |steps| then Some(Name(a.instance, steps[k + 1].name)) else None
  }

  /** Unfinished children are the active one, or its successor once it is terminal
      and the patch that makes it active is outstanding. */
  ghost predicate Guarded(active: Option<Active>, held: set<Name>) {
    match active
    case None => forall m, n :: m in held && n in held ==> m == n
    case Some(a) =>
      && a.ref == Some(Here(a))
      && forall n :: n in held ==> n == Here(a) || (Next(a) == Some(n) && Here(a) !in held)
  }

  lemma GuardedShrinks(active: Option<Active>, held: set<Name>, held': set<Name>)
    requires Guarded(active, held) && held' <= held
    ensures Guarded(active, held')
  {
  }

  lemma GuardedSingle(active: Option<Active>, held: set<Name>, m: Name, n: Name)
    requires Guarded(active, held) && m in held && n in held
    ensures m == n
  {
  }

  // ----- the invariant -----

  ghost predicate Keyed(runs: map<Name, Child>, uid: string) {
    forall n :: n in runs && runs[n].owner == uid ==> n == Name(runs[n].instance, runs[n].step)
  }

  predicate Siblings(a: Child, b: Child, uid: string) {
    a.owner == uid && b.owner == uid && a.instance == b.instance
  }

  /** All children of one instance come from one generation and one workflow. */
  ghost predicate Frozen(runs: map<Name, Child>, uid: string) {
    forall m, n :: m in runs && n in runs && Siblings(runs[m], runs[n], uid) ==>
      runs[m].generation == runs[n].generation && runs[m].digest == runs[n].digest
  }

  ghost predicate Owns(runs: map<Name, Child>, uid: string) {
    exists n :: n in runs && runs[n].owner == uid
  }

  /** While the chain lacks the finalizer it has no children; once gone, none unfinished. */
  ghost predicate Guarding(chain: Option<Chain>, uid: string, runs: map<Name, Child>) {
    match chain
    case None => UnfinishedRuns(runs, uid) == {}
    case Some(c) =>
      && c.uid == uid && (!c.finalizer ==> c.status.active.None? && !Owns(runs, uid))
      && Guarded(c.status.active, UnfinishedRuns(runs, uid))
  }

  /** The controller's copy is current in all it relies on. */
  ghost predicate WorkerSound(w: World) {
    match w.worker
    case Resting => true
    case Loaded(copy, now) =>
      && copy.uid == w.uid && now <= w.clock
      && (copy.finalizer ==> w.chain.Some? && w.chain.value.finalizer && w.chain.value.status == copy.status)
      && (copy.deleting && copy.finalizer ==> w.chain.value.deleting)
    case Finalizing(install) =>
      !install ==> UnfinishedRuns(w.runs, w.uid) == {} && (w.chain.Some? ==> w.chain.value.deleting)
    case Patching(s, now) =>
      && w.chain.Some? && w.chain.value.finalizer && now <= w.clock
      && Guarded(s.active, UnfinishedRuns(w.runs, w.uid))
  }

  ghost predicate Sound(w: World) {
    && Keyed(w.runs, w.uid) && Frozen(w.runs, w.uid)
    && Guarding(w.chain, w.uid, w.runs) && WorkerSound(w)
  }

  // ----- users and children -----

  lemma ChainStepSound(w: World, a: Action, w': World)
    requires Sound(w) && ChainStep(w, a, w')
    ensures Sound(w')
  {
  }

  lemma RunsShrink(w: World, a: Action, w': World)
    requires RunStep(w, a, w')
    ensures UnfinishedRuns(w'.runs, w.uid) <= UnfinishedRuns(w.runs, w.uid)
    ensures Owns(w'.runs, w.uid) ==> Owns(w.runs, w.uid)
    ensures forall n :: n in w'.runs && w'.runs[n].owner == w.uid ==> n in w.runs && Later(w.runs[n], w'.runs[n])
  {
  }

  lemma RunStepSound(w: World, a: Action, w': World)
    requires Sound(w) && RunStep(w, a, w')
    ensures Sound(w')
  {
    RunsShrink(w, a, w');
    var (held, held') := (UnfinishedRuns(w.runs, w.uid), UnfinishedRuns(w'.runs, w.uid));
    if w.chain.Some? {
      GuardedShrinks(w.chain.value.status.active, held, held');
    }
    if w.worker.Patching? {
      GuardedShrinks(w.worker.status.active, held, held');
    }
  }

  // ----- the controller -----

  lemma TakesHeld(uid: string, a: Active, runs: map<Name, Child>, runs': map<Name, Child>)
    requires Takes(uid, a, runs, runs')
    ensures UnfinishedRuns(runs', uid) <= UnfinishedRuns(runs, uid) + {Here(a)}
  {
  }

  lemma TakesFrozen(uid: string, a: Active, runs: map<Name, Child>, runs': map<Name, Child>)
    requires Takes(uid, a, runs, runs') && Keyed(runs, uid) && Frozen(runs, uid)
    requires forall n :: n in runs && runs[n].owner == uid && runs[n].instance == a.instance ==>
      runs[n].generation == a.generation && Some(runs[n].digest) == a.digest
    ensures Keyed(runs', uid) && Frozen(runs', uid)
  {
  }

  /** A terminal active run leaves at most its successor unfinished. */
  lemma SettledHeld(uid: string, a: Active, runs: map<Name, Child>)
    requires Settled(uid, a, runs) && Guarded(Some(a), UnfinishedRuns(runs, uid))
    ensures forall n :: n in UnfinishedRuns(runs, uid) ==> Next(a) == Some(n)
  {
  }

  lemma AdvanceSound(c: Chain, a: Active, a': Active, runs: map<Name, Child>, runs': map<Name, Child>)
    requires Advances(c, a, a', runs, runs') && Keyed(runs, c.uid) && Frozen(runs, c.uid)
    requires Guarded(Some(a), UnfinishedRuns(runs, c.uid))
    ensures Keyed(runs', c.uid) && Frozen(runs', c.uid)
    ensures Guarded(Some(a), UnfinishedRuns(runs', c.uid)) && Guarded(Some(a'), UnfinishedRuns(runs', c.uid))
  {
    TakesHeld(c.uid, a', runs, runs');
    SettledHeld(c.uid, a, runs);
    assert Next(a) == Some(Here(a'));
    TakesFrozen(c.uid, a', runs, runs');
    assert Here(a) in runs && runs'[Here(a)] == runs[Here(a)];
  }

  lemma StartSound(c: Chain, a': Active, runs: map<Name, Child>, runs': map<Name, Child>)
    requires Starts(c, a', runs, runs') && Keyed(runs, c.uid) && Frozen(runs, c.uid)
    ensures Keyed(runs', c.uid) && Frozen(runs', c.uid)
    ensures Guarded(None, UnfinishedRuns(runs', c.uid)) && Guarded(Some(a'), UnfinishedRuns(runs', c.uid))
  {
    TakesHeld(c.uid, a', runs, runs');
    TakesFrozen(c.uid, a', runs, runs');
  }

  lemma {:induction false} EffectSound(c: Chain, active: Option<Active>, runs: map<Name, Child>, runs': map<Name, Child>)
    requires Effect(c, runs, active, runs') && Keyed(runs, c.uid) && Frozen(runs, c.uid)
    requires Guarded(c.status.active, UnfinishedRuns(runs, c.uid))
    ensures Keyed(runs', c.uid) && Frozen(runs', c.uid)
    ensures Guarded(c.status.active, UnfinishedRuns(runs', c.uid)) && Guarded(active, UnfinishedRuns(runs', c.uid))
  {
    match (c.status.active, active)
    case (None, None) =>
    case (None, Some(a')) =>
      if Starts(c, a', runs, runs') { StartSound(c, a', runs, runs'); }
    case (Some(a), None) => SettledHeld(c.uid, a, runs);
    case (Some(a), Some(a')) =>
      if Advances(c, a, a', runs, runs') { AdvanceSound(c, a, a', runs, runs'); }
  }

  /** What an outcome says about the chain it was computed from. */
  ghost predicate Warranted(c: Chain, runs: map<Name, Child>, o: Outcome) {
    match o
    case Write(s, runs') => c.finalizer && Effect(c, runs, s.active, runs')
    case Finalize(install) => !install ==> c.deleting && c.finalizer && UnfinishedRuns(runs, c.uid) == {}
    case _ => true
  }

  lemma ReconcileFinalizes(c: Chain, paused: bool, runs: map<Name, Child>, uid: string, now: int)
    requires Reconcile(c, paused, runs, uid, now) == Finalize(false)
    ensures c.deleting && c.finalizer && UnfinishedRuns(runs, c.uid) == {}
  {
  }

  lemma {:induction false} ReconcileWarranted(c: Chain, paused: bool, runs: map<Name, Child>, uid: string, now: int)
    ensures Warranted(c, runs, Reconcile(c, paused, runs, uid, now))
  {
    var o := Reconcile(c, paused, runs, uid, now);
    if o.Write? {
      ReconcileEffect(c, paused, runs, uid, now);
    } else if o == Finalize(false) {
      ReconcileFinalizes(c, paused, runs, uid, now);
    }
  }

  lemma {:induction false} ActedSound(w: World, o: Outcome, w': World)
    requires Sound(w) && w.worker.Loaded? && Warranted(w.worker.copy, w.runs, o)
    requires Acted(w, w.worker.copy, o, w.worker.now, w')
    ensures Sound(w')
  {
    if o.Write? {
      EffectSound(w.worker.copy, o.status.active, w.runs, o.runs);
    }
  }

  lemma {:induction false} ActSound(w: World, a: Action, w': World)
    requires Sound(w) && a.Act? && WorkerStep(w, a, w')
    ensures Sound(w')
  {
    ReconcileWarranted(w.worker.copy, a.paused, w.runs, a.uid, w.worker.now);
    ActedSound(w, Reconcile(w.worker.copy, a.paused, w.runs, a.uid, w.worker.now), w');
  }

  lemma PatchSound(w: World, a: Action, w': World)
    requires Sound(w) && !a.Act? && WorkerStep(w, a, w')
    ensures Sound(w')
  {
  }

  lemma {:induction false} StepSound(w: World, a: Action, w': World)
    requires Sound(w) && Step(w, a, w')
    ensures Sound(w')
  {
    if ChainStep(w, a, w') {
      ChainStepSound(w, a, w');
    } else if RunStep(w, a, w') {
      RunStepSound(w, a, w');
    } else if a.Act? {
      ActSound(w, a, w');
    } else {
      PatchSound(w, a, w');
    }
  }

  lemma {:induction false} RunSound(tr: Trace)
    requires Run(tr)
    ensures Sound(Last(tr))
  {
    if tr.Then? {
      RunSound(tr.before);
      StepSound(Last(tr.before), tr.action, tr.world);
    }
  }

  // ----- the theorems -----

  /** Forbid: in every run a chain owns at most one unfinished child. */
  lemma {:induction false} ForbidSafety(tr: Trace)
    requires Run(tr)
    ensures |UnfinishedRuns(Last(tr).runs, Last(tr).uid)| <= 1
  {
    var w := Last(tr);
    RunSound(tr);
    var held := UnfinishedRuns(w.runs, w.uid);
    if n :| n in held {
      forall m | m in held ensures m == n {
        if w.chain.Some? {
          GuardedSingle(w.chain.value.status.active, held, m, n);
        }
      }
      assert held == {n};
    }
  }

  /** In every run the children of one instance share generation and workflow, and no
      two of them are of the same step. */
  lemma {:induction false} WorkflowFrozen(tr: Trace, m: Name, n: Name)
    requires Run(tr) && m in Last(tr).runs && n in Last(tr).runs
    requires Last(tr).runs[m].owner == Last(tr).uid && Last(tr).runs[n].owner == Last(tr).uid
    requires Last(tr).runs[m].instance == Last(tr).runs[n].instance
    ensures Last(tr).runs[m].generation == Last(tr).runs[n].generation
    ensures Last(tr).runs[m].digest == Last(tr).runs[n].digest
    ensures Last(tr).runs[m].step == Last(tr).runs[n].step ==> m == n
  {
    RunSound(tr);
  }

  /** Drain: once the chain is gone, no child of it is unfinished. */
  lemma {:induction false} DrainedWhenGone(tr: Trace)
    requires Run(tr) && Last(tr).chain.None?
    ensures UnfinishedRuns(Last(tr).runs, Last(tr).uid) == {}
  {
    RunSound(tr);
  }

  /** A child is created only under the finalizer, by a reconcile that read a chain not being deleted. */
  lemma {:induction false} CreatedUnderFinalizer(tr: Trace, a: Action, w': World)
    requires Run(tr) && Step(Last(tr), a, w') && |w'.created| > |Last(tr).created|
    ensures a.Act? && Last(tr).worker.Loaded?
    ensures !Last(tr).worker.copy.deleting && Last(tr).worker.copy.finalizer && !Last(tr).worker.copy.spec.suspend && !a.paused
    ensures Last(tr).chain.Some? && Last(tr).chain.value.finalizer
  {
    RunSound(tr);
    var w := Last(tr);
    ReconcileEffect(w.worker.copy, a.paused, w.runs, a.uid, w.worker.now);
  }

  // ----- deletion -----

  /** No deletion is requested between a read and what the reconcile does with it. */
  predicate DeletionWaits(w: World, a: Action) {
    a.DeleteChain? ==> !w.worker.Loaded?
  }

  ghost predicate DeletionsWait(tr: Trace) {
    tr.Then? ==> DeletionsWait(tr.before) && DeletionWaits(Last(tr.before), tr.action)
  }

  ghost predicate ReadCurrent(w: World) {
    w.worker.Loaded? && w.chain.Some? ==> w.chain.value.deleting == w.worker.copy.deleting
  }

  lemma {:induction false} RunReadCurrent(tr: Trace)
    requires Run(tr) && DeletionsWait(tr)
    ensures ReadCurrent(Last(tr))
  {
    if tr.Then? {
      RunReadCurrent(tr.before);
    }
  }

  /** If deletions wait for the reconcile in progress, no child is ever created after
      deletion was requested. */
  lemma {:induction false} NoneAfterDeletion(tr: Trace, a: Action, w': World)
    requires Run(tr) && DeletionsWait(tr) && Step(Last(tr), a, w') && |w'.created| > |Last(tr).created|
    ensures Last(tr).chain.Some? && !Last(tr).chain.value.deleting
  {
    CreatedUnderFinalizer(tr, a, w');
    RunReadCurrent(tr);
  }

  /** A deletion that comes between the read and the creation never stops it: the child
      is created all the same, under a chain that is being deleted. */
  lemma {:induction false} LateDeletionCreates(tr: Trace, a: Action, w': World) returns (deleted: World, created: World)
    requires Run(tr) && Step(Last(tr), a, w') && |w'.created| > |Last(tr).created|
    ensures Step(Last(tr), DeleteChain, deleted) && Step(deleted, a, created)
    ensures deleted.created == Last(tr).created && created.created == w'.created && created.runs == w'.runs
    ensures deleted.chain.Some? && deleted.chain.value.deleting && created.chain == deleted.chain
  {
    CreatedUnderFinalizer(tr, a, w');
    var c := Last(tr).chain.value;
    deleted := Last(tr).(chain := Some(c.(deleting := true)));
    created := w'.(chain := Some(c.(deleting := true)));
    assert ChainStep(Last(tr), DeleteChain, deleted);
    assert WorkerStep(deleted, a, created);
  }
}
