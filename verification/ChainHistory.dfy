/** Every child ever created, in every run of an agent chain: the steps of an instance
    are created in the order of its workflow, each behind its gate. */
module ChainHistory {
  import opened Strings
  import opened AgentRuns
  import opened ChainTypes
  import opened ChainSpec
  import opened ChainEffects
  import opened ChainRuns
  import ChainTheorems

  predicate SameInstance(d: Creation, e: Creation) {
    d.instance == e.instance && d.generation == e.generation && d.digest == e.digest
  }

  /** The run seen before the creation was that of the step before it, terminal, and
      it matched the gate of the created step. */
  ghost predicate Gated(e: Creation) {
    && e.index < |e.digest.steps|
    && (e.index > 0 ==>
          && e.prior.Some?
          && var p := e.prior.value;
             && p.instance == e.instance && p.generation == e.generation && p.digest == e.digest
             && p.step == e.digest.steps[e.index - 1].name && Terminal(p.phase)
             && WhenMatches(e.digest.steps[e.index].when, p.step, p))
  }

  ghost predicate Follows(created: seq<Creation>, i: nat)
    requires i < |created|
  {
    created[i].index > 0 ==>
      exists j :: 0 <= j < i && SameInstance(created[j], created[i]) && created[j].index + 1 == created[i].index
  }

  ghost predicate Ordered(created: seq<Creation>) {
    forall i :: 0 <= i < |created| ==>
      Gated(created[i]) && DistinctNames(created[i].digest.steps) && Follows(created, i)
  }

  predicate Records(e: Creation, run: Child) {
    && e.instance == run.instance && e.generation == run.generation && e.digest == run.digest
    && e.index < |e.digest.steps| && e.digest.steps[e.index].name == run.step
  }

  ghost predicate Recorded(created: seq<Creation>, run: Child) {
    exists i :: 0 <= i < |created| && Records(created[i], run)
  }

  ghost predicate Registered(created: seq<Creation>, runs: map<Name, Child>, uid: string) {
    forall n :: n in runs && runs[n].owner == uid ==> Recorded(created, runs[n])
  }

  ghost predicate Sound(w: World) {
    && Ordered(w.created) && Registered(w.created, w.runs, w.uid)
    && (w.worker.Loaded? ==> w.worker.copy.uid == w.uid) && (w.chain.Some? ==> w.chain.value.uid == w.uid)
  }

  lemma Distinct(steps: seq<StepSpec>, i: nat, j: nat)
    requires DistinctNames(steps) && i < |steps| && j < |steps| && steps[i].name == steps[j].name
    ensures i == j
  {
  }

  lemma OrderedAppend(created: seq<Creation>, e: Creation)
    requires Ordered(created) && Gated(e) && DistinctNames(e.digest.steps)
    requires e.index > 0 ==> Preceded(created, e)
    ensures Ordered(created + [e])
  {
    var longer := created + [e];
    forall i | 0 <= i < |longer| ensures Follows(longer, i) {
      if i < |created| {
        assert Follows(created, i);
        if created[i].index > 0 {
          var j :| 0 <= j < i && SameInstance(created[j], created[i]) && created[j].index + 1 == created[i].index;
          assert SameInstance(longer[j], longer[i]);
        }
      } else if e.index > 0 {
        var j :| 0 <= j < |created| && SameInstance(created[j], e) && created[j].index + 1 == e.index;
        assert SameInstance(longer[j], longer[i]);
      }
    }
  }

  lemma RecordedAppend(created: seq<Creation>, e: Creation, run: Child)
    requires Recorded(created, run) || Records(e, run)
    ensures Recorded(created + [e], run)
  {
    var longer := created + [e];
    if Recorded(created, run) {
      var i :| 0 <= i < |created| && Records(created[i], run);
      assert Records(longer[i], run);
    } else {
      assert Records(longer[|created|], run);
    }
  }

  lemma {:induction false} StepFound(steps: seq<StepSpec>, k: nat)
    requires DistinctNames(steps) && k < |steps|
    ensures StepAt(steps, steps[k].name) == k
  {
    Distinct(steps, StepAt(steps, steps[k].name), k);
  }

  ghost predicate Preceded(created: seq<Creation>, e: Creation) {
    exists j :: 0 <= j < |created| && SameInstance(created[j], e) && created[j].index + 1 == e.index
  }

  /** The creation of the step before is in the log, because its run is. */
  lemma {:induction false} PriorCreated(created: seq<Creation>, run: Child, e: Creation)
    requires Recorded(created, run) && DistinctNames(e.digest.steps)
    requires run.instance == e.instance && run.generation == e.generation && run.digest == e.digest
    requires 0 < e.index <= |e.digest.steps| && run.step == e.digest.steps[e.index - 1].name
    ensures Preceded(created, e)
  {
    var j :| 0 <= j < |created| && Records(created[j], run);
    Distinct(e.digest.steps, created[j].index, e.index - 1);
    assert SameInstance(created[j], e);
  }

  /** The entry of an advance: one step further than the run it follows. */
  lemma {:induction false} AdvanceEntry(
    c: Chain, a: Active, a': Active, runs: map<Name, Child>, runs': map<Name, Child>, created: seq<Creation>)
    requires Advances(c, a, a', runs, runs') && c.status.active == Some(a) && ValidSpec(c.spec)
    requires Registered(created, runs, c.uid)
    ensures var e := CreationOf(c, a', runs);
      Gated(e) && e.index > 0 && Records(e, runs'[Here(a')]) && Preceded(created, e)
  {
    var steps := c.spec.workflow.steps;
    StepFound(steps, StepAt(steps, a.step) + 1);
    PriorCreated(created, runs[a.ref.value], CreationOf(c, a', runs));
  }

  lemma StartEntry(c: Chain, a': Active, runs: map<Name, Child>, runs': map<Name, Child>)
    requires Starts(c, a', runs, runs') && ValidSpec(c.spec)
    ensures var e := CreationOf(c, a', runs); Gated(e) && e.index == 0 && Records(e, runs'[Here(a')])
  {
  }

  lemma TakesRegistered(
    created: seq<Creation>, e: Creation, uid: string, a: Active, runs: map<Name, Child>, runs': map<Name, Child>)
    requires Takes(uid, a, runs, runs') && Registered(created, runs, uid) && Records(e, runs'[Here(a)])
    ensures Registered(created + [e], runs', uid)
  {
    forall n | n in runs' && runs'[n].owner == uid ensures Recorded(created + [e], runs'[n]) {
      RecordedAppend(created, e, runs'[n]);
    }
  }

  /** The children after a reconcile that added one. */
  lemma EffectHistory(c: Chain, active: Option<Active>, runs: map<Name, Child>, runs': map<Name, Child>, created: seq<Creation>)
    requires Effect(c, runs, active, runs') && runs'.Keys != runs.Keys && ValidSpec(c.spec)
    requires Ordered(created) && Registered(created, runs, c.uid)
    ensures active.Some? && active.value.digest.Some?
    ensures var longer := created + [CreationOf(c, active.value, runs)];
      Ordered(longer) && Registered(longer, runs', c.uid)
  {
    var a' := active.value;
    var e := CreationOf(c, a', runs);
    if c.status.active.Some? {
      AdvanceEntry(c, c.status.active.value, a', runs, runs', created);
    } else {
      StartEntry(c, a', runs, runs');
    }
    OrderedAppend(created, e);
    TakesRegistered(created, e, c.uid, a', runs, runs');
  }

  /** A reconcile that adds no child leaves the children as they are. */
  lemma EffectSame(c: Chain, active: Option<Active>, runs: map<Name, Child>, runs': map<Name, Child>)
    requires Effect(c, runs, active, runs') && runs'.Keys == runs.Keys
    ensures runs' == runs
  {
  }

  lemma ActedSound(w: World, o: Outcome, w': World)
    requires Sound(w) && w.worker.Loaded? && Acted(w, w.worker.copy, o, w.worker.now, w')
    requires o.Write? ==> Effect(w.worker.copy, w.runs, o.status.active, o.runs)
    requires o.Write? && o.runs != w.runs ==> ValidSpec(w.worker.copy.spec)
    ensures Sound(w')
  {
    if o.Write? {
      if o.runs.Keys == w.runs.Keys {
        EffectSame(w.worker.copy, o.status.active, w.runs, o.runs);
      } else {
        EffectHistory(w.worker.copy, o.status.active, w.runs, o.runs, w.created);
      }
    }
  }

  lemma RunStepSound(w: World, a: Action, w': World)
    requires Sound(w) && RunStep(w, a, w')
    ensures Sound(w')
  {
  }

  lemma {:induction false} StepSound(w: World, a: Action, w': World)
    requires Sound(w) && Step(w, a, w')
    ensures Sound(w')
  {
    if RunStep(w, a, w') {
      RunStepSound(w, a, w');
    } else if a.Act? {
      var o := Reconcile(w.worker.copy, a.paused, w.runs, a.uid, w.worker.now);
      if o.Write? {
        ReconcileEffect(w.worker.copy, a.paused, w.runs, a.uid, w.worker.now);
      }
      ActedSound(w, o, w');
    }
  }

  lemma {:induction false} RunSound(tr: Trace)
    requires Run(tr)
    ensures Sound(Last(tr))
  {
    if tr.Then? {
      RunSound(tr.before);
      StepSound(Last(tr.before), tr.action, tr.world);
    }
  }

  // ----- the theorems -----

  /** Prefix: whenever a step of an instance was created, every earlier step of its
      workflow had been created before, for the same generation and workflow. */
  lemma {:induction false} StepsFormPrefix(tr: Trace, i: nat, k: nat)
    requires Run(tr) && i < |Last(tr).created| && k < Last(tr).created[i].index
    ensures exists j :: 0 <= j < i && SameInstance(Last(tr).created[j], Last(tr).created[i]) && Last(tr).created[j].index == k
    decreases i
  {
    RunSound(tr);
    var created := Last(tr).created;
    assert Follows(created, i);
    var j :| 0 <= j < i && SameInstance(created[j], created[i]) && created[j].index + 1 == created[i].index;
    if created[j].index > k {
      StepsFormPrefix(tr, j, k);
      var h :| 0 <= h < j && SameInstance(created[h], created[j]) && created[h].index == k;
      assert SameInstance(created[h], created[i]);
    }
  }

  /** Every step but the first was created on a terminal run of the step before it,
      of the same instance and workflow, that matched its gate. */
  lemma {:induction false} StepsGated(tr: Trace, i: nat)
    requires Run(tr) && i < |Last(tr).created|
    ensures Gated(Last(tr).created[i])
  {
    RunSound(tr);
  }

  /** No child exists that was not created this way. */
  lemma {:induction false} ChildrenRecorded(tr: Trace, n: Name)
    requires Run(tr) && n in Last(tr).runs && Last(tr).runs[n].owner == Last(tr).uid
    ensures Recorded(Last(tr).created, Last(tr).runs[n])
  {
    RunSound(tr);
  }

  // ----- the freeze over the whole log -----

  /** The child of a log entry still exists. */
  predicate Standing(e: Creation, runs: map<Name, Child>, uid: string) {
    && e.index < |e.digest.steps|
    && var name := Name(e.instance, e.digest.steps[e.index].name);
       name in runs && runs[name].owner == uid && Records(e, runs[name])
  }

  ghost predicate Present(created: seq<Creation>, runs: map<Name, Child>, uid: string, instance: Instance) {
    forall i :: 0 <= i < |created| && created[i].instance == instance ==> Standing(created[i], runs, uid)
  }

  /** Two entries of one instance: of one generation and workflow, and of different steps. */
  predicate Agree(d: Creation, e: Creation) {
    d.generation == e.generation && d.digest == e.digest && d.index != e.index
  }

  ghost predicate AllAgree(created: seq<Creation>, instance: Instance) {
    forall i, j :: 0 <= i < j < |created| && created[i].instance == instance && created[j].instance == instance ==>
      Agree(created[i], created[j])
  }

  /** A new child of the instance joins those that exist. */
  lemma {:induction false} TakesAgrees(
    created: seq<Creation>, e: Creation, uid: string, a: Active, runs: map<Name, Child>, runs': map<Name, Child>)
    requires Takes(uid, a, runs, runs') && Here(a) !in runs && Records(e, runs'[Here(a)]) && e.instance == a.instance
    requires ChainTheorems.Frozen(runs', uid)
    requires Present(created, runs, uid, e.instance) && AllAgree(created, e.instance)
    ensures AllAgree(created + [e], e.instance)
  {
    forall i | 0 <= i < |created| && created[i].instance == e.instance ensures Agree(created[i], e) {
      var d := created[i];
      var name := Name(d.instance, d.digest.steps[d.index].name);
      assert Standing(d, runs, uid);
      assert ChainTheorems.Siblings(runs'[name], runs'[Here(a)], uid);
    }
  }

  lemma {:induction false} TakesPresent(
    created: seq<Creation>, e: Creation, uid: string, a: Active, runs: map<Name, Child>, runs': map<Name, Child>, instance: Instance)
    requires Takes(uid, a, runs, runs') && Records(e, runs'[Here(a)]) && e.instance == a.instance
    requires Present(created, runs, uid, instance)
    ensures Present(created + [e], runs', uid, instance)
  {
    forall i | 0 <= i < |created| && created[i].instance == instance ensures Standing(created[i], runs', uid) {
      assert Standing(created[i], runs, uid);
    }
  }

  /** The log entry of a reconcile that adds a child. */
  lemma {:induction false} EffectEntry(
    c: Chain, active: Option<Active>, runs: map<Name, Child>, runs': map<Name, Child>, created: seq<Creation>)
    requires Effect(c, runs, active, runs') && runs'.Keys != runs.Keys && ValidSpec(c.spec)
    requires Ordered(created) && Registered(created, runs, c.uid)
    ensures active.Some? && Takes(c.uid, active.value, runs, runs') && Here(active.value) !in runs
    ensures var e := CreationOf(c, active.value, runs);
      Records(e, runs'[Here(active.value)]) && e.instance == active.value.instance
  {
    var a' := active.value;
    if c.status.active.Some? {
      AdvanceEntry(c, c.status.active.value, a', runs, runs', created);
    } else {
      StartEntry(c, a', runs, runs');
    }
    assert Here(a') in runs ==> runs'.Keys == runs.Keys;
  }

  lemma {:induction false} EffectAgrees(
    c: Chain, active: Option<Active>, runs: map<Name, Child>, runs': map<Name, Child>, created: seq<Creation>, instance: Instance)
    requires Effect(c, runs, active, runs') && runs'.Keys != runs.Keys && ValidSpec(c.spec)
    requires Ordered(created) && Registered(created, runs, c.uid) && ChainTheorems.Frozen(runs', c.uid)
    requires Present(created, runs, c.uid, instance) && AllAgree(created, instance)
    ensures active.Some? && active.value.digest.Some?
    ensures var longer := created + [CreationOf(c, active.value, runs)];
      Present(longer, runs', c.uid, instance) && AllAgree(longer, instance)
  {
    var a' := active.value;
    var e := CreationOf(c, a', runs);
    EffectEntry(c, active, runs, runs', created);
    TakesPresent(created, e, c.uid, a', runs, runs', instance);
    if e.instance == instance {
      TakesAgrees(created, e, c.uid, a', runs, runs');
    }
  }

  ghost predicate FrozenLog(w: World, instance: Instance) {
    Present(w.created, w.runs, w.uid, instance) && AllAgree(w.created, instance)
  }

  lemma {:induction false} ActedFrozen(w: World, o: Outcome, w': World, instance: Instance)
    requires Sound(w) && w.worker.Loaded? && Acted(w, w.worker.copy, o, w.worker.now, w')
    requires o.Write? ==> Effect(w.worker.copy, w.runs, o.status.active, o.runs)
    requires o.Write? && o.runs != w.runs ==> ValidSpec(w.worker.copy.spec)
    requires ChainTheorems.Frozen(w'.runs, w.uid) && FrozenLog(w, instance)
    ensures FrozenLog(w', instance)
  {
    if o.Write? {
      if o.runs.Keys == w.runs.Keys {
        EffectSame(w.worker.copy, o.status.active, w.runs, o.runs);
      } else {
        EffectAgrees(w.worker.copy, o.status.active, w.runs, o.runs, w.created, instance);
      }
    }
  }

  /** The step deletes a child of the instance. */
  predicate Deletes(w: World, a: Action, instance: Instance) {
    a.DeleteRun? && a.name in w.runs && w.runs[a.name].owner == w.uid && w.runs[a.name].instance == instance
  }

  lemma {:induction false} RunStepFrozen(w: World, a: Action, w': World, instance: Instance)
    requires RunStep(w, a, w') && FrozenLog(w, instance) && !Deletes(w, a, instance)
    ensures FrozenLog(w', instance)
  {
    forall i | 0 <= i < |w.created| && w.created[i].instance == instance ensures Standing(w.created[i], w'.runs, w.uid) {
      assert Standing(w.created[i], w.runs, w.uid);
    }
  }

  ghost predicate NoneDeleted(tr: Trace, instance: Instance) {
    tr.Then? ==> NoneDeleted(tr.before, instance) && !Deletes(Last(tr.before), tr.action, instance)
  }

  lemma {:induction false} StepFrozen(w: World, a: Action, w': World, instance: Instance)
    requires Sound(w) && ChainTheorems.Sound(w') && Step(w, a, w') && FrozenLog(w, instance) && !Deletes(w, a, instance)
    ensures FrozenLog(w', instance)
  {
    if RunStep(w, a, w') {
      RunStepFrozen(w, a, w', instance);
    } else if a.Act? {
      var o := Reconcile(w.worker.copy, a.paused, w.runs, a.uid, w.worker.now);
      if o.Write? {
        ReconcileEffect(w.worker.copy, a.paused, w.runs, a.uid, w.worker.now);
      }
      ActedFrozen(w, o, w', instance);
    }
  }

  /** Freeze: in every run that deletes no child of the instance, all children ever created
      for it share generation and workflow, and no step has two. */
  lemma {:induction false} InstanceFrozen(tr: Trace, instance: Instance)
    requires Run(tr) && NoneDeleted(tr, instance)
    ensures FrozenLog(Last(tr), instance)
  {
    if tr.Then? {
      InstanceFrozen(tr.before, instance);
      RunSound(tr.before);
      ChainTheorems.RunSound(tr);
      StepFrozen(Last(tr.before), tr.action, tr.world, instance);
    }
  }
}
