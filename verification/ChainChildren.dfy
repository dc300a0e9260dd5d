/** The children of a chain over whole runs: what they carry, which results they receive,
    how many are started a day, and that a suspended chain gets none. */
module ChainChildren {
  import opened Strings
  import opened AgentRuns
  import opened ChainTypes
  import opened ChainCadence
  import opened ChainSpec
  import opened ChainEffects
  import opened ChainRuns
  import opened ChainOutcomes
  import ChainTheorems
  import ChainHistory

  // ----- which reconciles create -----

  /** The active child is done and the next step's gate is open. */
  ghost predicate ReadyToAdvance(c: Chain, paused: bool, runs: map<Name, Child>) {
    && Following(c, paused, runs) && Terminal(ActiveRun(c, runs).phase) && ActiveRun(c, runs).phase != NeedsHuman
    && GateOpen(c, ActiveRun(c, runs))
  }

  ghost predicate ReadyToStart(c: Chain, paused: bool, runs: map<Name, Child>, now: int) {
    Driven(c, paused) && AtRest(c, runs) && Wanted(c, runs, now)
  }

  lemma {:induction false} ActiveCreates(c: Chain, paused: bool, runs: map<Name, Child>, uid: string, now: int)
    requires Driven(c, paused) && c.status.active.Some?
    requires Reconcile(c, paused, runs, uid, now).Write? && Reconcile(c, paused, runs, uid, now).runs != runs
    ensures ReadyToAdvance(c, paused, runs)
  {
    if CancelAsked(c) {
      CancelRecorded(c, paused, runs, uid, now);
    } else if CancelledNow(c) {
      CancelledReleases(c, paused, runs, uid, now);
    } else if !Following(c, paused, runs) {
      StrangeBlocks(c, paused, runs, uid, now);
    } else if !Terminal(ActiveRun(c, runs).phase) {
      UnfinishedWaits(c, paused, runs, uid, now);
    } else if !ReadyToAdvance(c, paused, runs) {
      StoppedReleases(c, paused, runs, uid, now);
    }
  }

  lemma {:induction false} RestingCreates(c: Chain, paused: bool, runs: map<Name, Child>, uid: string, now: int)
    requires Driven(c, paused) && c.status.active.None?
    requires Reconcile(c, paused, runs, uid, now).Write? && Reconcile(c, paused, runs, uid, now).runs != runs
    ensures ReadyToStart(c, paused, runs, now)
  {
    if n :| n in runs && runs[n].owner == c.uid && !Terminal(runs[n].phase) {
      if m :| m in runs && runs[m].owner == c.uid && !Terminal(runs[m].phase) && m != n {
        OrphansBlock(c, paused, runs, uid, now, m, n);
      } else {
        OrphanRecovers(c, paused, runs, uid, now, n);
      }
    } else if !Wanted(c, runs, now) {
      UnwantedRests(c, paused, runs, uid, now);
    }
  }

  /** A reconcile creates a child only to advance behind an open gate or to start a wanted
      instance. */
  lemma {:induction false} CreatesOnlyIf(c: Chain, paused: bool, runs: map<Name, Child>, uid: string, now: int)
    requires Reconcile(c, paused, runs, uid, now).Write? && Reconcile(c, paused, runs, uid, now).runs != runs
    ensures Driven(c, paused)
    ensures if c.status.active.Some? then ReadyToAdvance(c, paused, runs) else ReadyToStart(c, paused, runs, now)
  {
    ReconcileEffect(c, paused, runs, uid, now);
    if c.status.active.Some? {
      ActiveCreates(c, paused, runs, uid, now);
    } else {
      RestingCreates(c, paused, runs, uid, now);
    }
  }

  // ----- what children carry -----

  /** A child carries the template of its step in the workflow it is bound to, and that
      workflow's application. A first step carries the due time that names its instance and
      no results, a later one the time at which the step before it ended. */
  ghost predicate Proper(run: Child) {
    var (k, content) := (StepAt(run.digest.steps, run.step), run.content);
    && k < |run.digest.steps| && content.template == run.digest.steps[k].template
    && Application(run.digest) == Some(content.application)
    && (k == 0 ==> content.handoff == [] && content.detectedAt == (if run.instance.Interval? then Some(run.instance.dueAt) else None))
    && (k > 0 ==> content.detectedAt.Some? && |content.handoff| == |Sources(run.digest.steps[k])|)
  }

  lemma {:induction false} AdvancedProper(c: Chain, paused: bool, runs: map<Name, Child>, uid: string, now: int, n: Name)
    requires ReadyToAdvance(c, paused, runs) && n !in runs
    requires var o := Reconcile(c, paused, runs, uid, now); o.Write? && n in o.runs
    ensures Proper(Reconcile(c, paused, runs, uid, now).runs[n])
  {
    var handoff := GateAdvances(c, paused, runs, uid, now);
    var steps := c.spec.workflow.steps;
    ChainHistory.StepFound(steps, StepAt(steps, Trim(c.status.active.value.step)) + 1);
  }

  lemma {:induction false} StartedProper(c: Chain, paused: bool, runs: map<Name, Child>, uid: string, now: int, n: Name)
    requires ReadyToStart(c, paused, runs, now) && n !in runs
    requires var o := Reconcile(c, paused, runs, uid, now); o.Write? && n in o.runs
    ensures Proper(Reconcile(c, paused, runs, uid, now).runs[n])
  {
    WantedStarts(c, paused, runs, uid, now);
    ChainHistory.StepFound(c.spec.workflow.steps, 0);
  }

  ghost predicate AllProper(runs: map<Name, Child>, uid: string) {
    forall n :: n in runs && runs[n].owner == uid ==> Proper(runs[n])
  }

  lemma {:induction false} ActProper(w: World, a: Action, w': World)
    requires AllProper(w.runs, w.uid) && a.Act? && WorkerStep(w, a, w')
    ensures AllProper(w'.runs, w'.uid)
  {
    var (c, now) := (w.worker.copy, w.worker.now);
    var o := Reconcile(c, a.paused, w.runs, a.uid, now);
    if o.Write? && o.runs != w.runs {
      CreatesOnlyIf(c, a.paused, w.runs, a.uid, now);
      ReconcileEffect(c, a.paused, w.runs, a.uid, now);
      forall n | n in o.runs && o.runs[n].owner == w.uid ensures Proper(o.runs[n]) {
        if n in w.runs {
          assert o.runs[n] == w.runs[n];
        } else if c.status.active.Some? {
          AdvancedProper(c, a.paused, w.runs, a.uid, now, n);
        } else {
          StartedProper(c, a.paused, w.runs, a.uid, now, n);
        }
      }
    }
  }

  lemma {:induction false} OtherProper(w: World, a: Action, w': World)
    requires AllProper(w.runs, w.uid) && Step(w, a, w') && !a.Act?
    ensures AllProper(w'.runs, w'.uid)
  {
    if a.Progress? {
      assert w.runs[a.name].owner == w.uid ==> Proper(w.runs[a.name]);
    }
  }

  /** In every run every child of the chain, whatever became of its spec since, carries what
      its instance, step and workflow call for. */
  lemma {:induction false} ChildrenProper(tr: Trace)
    requires Run(tr)
    ensures AllProper(Last(tr).runs, Last(tr).uid)
  {
    if tr.Then? {
      ChildrenProper(tr.before);
      if tr.action.Act? {
        ActProper(Last(tr.before), tr.action, tr.world);
      } else {
        OtherProper(Last(tr.before), tr.action, tr.world);
      }
    }
  }

  // ----- results handed over -----

  /** Every result is the output of the child of that very step and instance. */
  ghost predicate FromSiblings(runs: map<Name, Child>, uid: string, instance: Instance, sources: seq<string>, handoff: seq<Option<string>>) {
    && |handoff| == |sources|
    && forall i :: 0 <= i < |sources| && handoff[i].Some? ==>
         var n := Name(instance, sources[i]);
         n in runs && runs[n].owner == uid && runs[n].instance == instance && runs[n].output == handoff[i].value
  }

  lemma {:induction false} HandedFromSiblings(
    c: Chain, runs: map<Name, Child>, records: seq<StepRun>, previous: string, run: Child, step: StepSpec, handoff: seq<Option<string>>)
    requires c.status.active.Some? && HandsOver(c, runs, records, previous, run, step, handoff)
    requires ChainTheorems.Keyed(runs, c.uid) && ChildOf(run, c, previous) && exists n :: n in runs && runs[n] == run
    ensures FromSiblings(runs, c.uid, c.status.active.value.instance, Sources(step), handoff)
  {
    var instance := c.status.active.value.instance;
    forall i | 0 <= i < |handoff| && handoff[i].Some?
      ensures var n := Name(instance, Sources(step)[i]);
        n in runs && runs[n].owner == c.uid && runs[n].instance == instance && runs[n].output == handoff[i].value
    {
      var source := Sources(step)[i];
      if source == previous {
        var n :| n in runs && runs[n] == run;
      } else {
        var n :| n in runs && ChildOf(runs[n], c, source) && handoff[i] == Some(runs[n].output);
      }
    }
  }

  /** Whenever a later step is created in a run, each result it receives is the output, at
      that moment, of the chain's own child of the named step in the same instance. */
  lemma {:induction false} ResultsFromSiblings(tr: Trace, a: Action, w': World, n: Name)
    requires Run(tr) && Step(Last(tr), a, w') && a.Act? && n in w'.runs && n !in Last(tr).runs
    requires Last(tr).worker.Loaded? && Last(tr).worker.copy.status.active.Some?
    ensures var (run, w) := (w'.runs[n], Last(tr));
      var k := StepAt(run.digest.steps, run.step);
      && 0 < k < |run.digest.steps| && run.owner == w.uid
      && FromSiblings(w.runs, w.uid, run.instance, Sources(run.digest.steps[k]), run.content.handoff)
  {
    var w := Last(tr);
    ChainTheorems.RunSound(tr);
    var (c, now) := (w.worker.copy, w.worker.now);
    var o := Reconcile(c, a.paused, w.runs, a.uid, now);
    CreatesOnlyIf(c, a.paused, w.runs, a.uid, now);
    var handoff := GateAdvances(c, a.paused, w.runs, a.uid, now);
    var (steps, run) := (c.spec.workflow.steps, ActiveRun(c, w.runs));
    var k := StepAt(steps, Trim(c.status.active.value.step));
    ChainHistory.StepFound(steps, k + 1);
    PreviousStep(c, run, k);
    HandedFromSiblings(c, w.runs, Updated(c, w.runs).stepRuns, steps[k].name, run, steps[k + 1], handoff);
  }

  lemma PreviousStep(c: Chain, run: Child, k: nat)
    requires ValidSpec(c.spec) && Current(c, run) && k + 1 < |c.spec.workflow.steps|
    requires WhenMatches(c.spec.workflow.steps[k + 1].when, c.spec.workflow.steps[k].name, run)
    ensures ChildOf(run, c, c.spec.workflow.steps[k].name)
  {
    assert ValidStep(c.spec.workflow.steps, k);
  }

  // ----- the daily budget -----

  /** An automatic instance is started only on a day on which fewer instances than the
      budget allows have a first child. */
  lemma {:induction false} BudgetKept(tr: Trace, a: Action, w': World, n: Name)
    requires Run(tr) && Step(Last(tr), a, w') && a.Act? && n in w'.runs && n !in Last(tr).runs
    requires Last(tr).worker.Loaded? && Last(tr).worker.copy.status.active.None? && n.instance.Interval?
    requires Last(tr).worker.copy.spec.maxPerDay > 0
    ensures var (c, runs, now) := (Last(tr).worker.copy, Last(tr).runs, Last(tr).worker.now);
      && c.spec.workflow.steps != []
      && forall started: set<Instance> :: AllStarted(started, c.spec.workflow.steps[0].name, runs, now) ==> |started| < c.spec.maxPerDay
  {
    var (c, runs, now) := (Last(tr).worker.copy, Last(tr).runs, Last(tr).worker.now);
    CreatesOnlyIf(c, a.paused, runs, a.uid, now);
    WantedStarts(c, a.paused, runs, a.uid, now);
    assert !DayFull(c, runs, now);
    forall started: set<Instance> | AllStarted(started, c.spec.workflow.steps[0].name, runs, now) ensures |started| < c.spec.maxPerDay {
      if |started| >= c.spec.maxPerDay {
        var some := SomeOf(started, c.spec.maxPerDay);
        assert AllStarted(some, c.spec.workflow.steps[0].name, runs, now);
      }
    }
  }

  // ----- suspension -----

  /** The reconcile read a chain that is suspended, or whose application is paused, or that
      it does not drive at all. */
  ghost predicate HeldBack(w: World, a: Action) {
    a.Act? && w.worker.Loaded? ==>
      var c := w.worker.copy;
      c.deleting || !c.finalizer || (ValidSpec(c.spec) && (c.spec.suspend || (a.paused && Application(c.spec.workflow).Some?)))
  }

  /** Every reconcile after `earlier` was held back. */
  ghost predicate AllHeldBack(tr: Trace, earlier: Trace) {
    tr == earlier || (tr.Then? && AllHeldBack(tr.before, earlier) && HeldBack(Last(tr.before), tr.action))
  }

  predicate SameButPhase(s: Status, s': Status) {
    s' == s.(phase := s'.phase)
  }

  ghost predicate StatusKept(w: World, s: Status) {
    && (w.chain.Some? ==> SameButPhase(s, w.chain.value.status))
    && (w.worker.Loaded? ==> SameButPhase(s, w.worker.copy.status))
    && (w.worker.Patching? ==> SameButPhase(s, w.worker.status))
  }

  lemma {:induction false} HeldBackStep(w: World, a: Action, w': World, s: Status)
    requires StatusKept(w, s) && Step(w, a, w') && HeldBack(w, a)
    ensures StatusKept(w', s) && w'.created == w.created
  {
    if a.Act? {
      var c := w.worker.copy;
      if !c.deleting && c.finalizer {
        SuspendedKeeps(c, a.paused, w.runs, a.uid, w.worker.now);
      }
    }
  }

  /** Over any stretch of any run in which every reconcile is held back, no child is created
      and the status, schedule included, changes in nothing but its phase. */
  lemma {:induction false} SuspensionFreezes(tr: Trace, earlier: Trace)
    requires Run(tr) && AllHeldBack(tr, earlier)
    requires Last(earlier).worker.Resting? && Last(earlier).chain.Some?
    ensures Last(tr).created == Last(earlier).created
    ensures StatusKept(Last(tr), Last(earlier).chain.value.status)
  {
    if tr != earlier {
      SuspensionFreezes(tr.before, earlier);
      HeldBackStep(Last(tr.before), tr.action, tr.world, Last(earlier).chain.value.status);
    }
  }
}
