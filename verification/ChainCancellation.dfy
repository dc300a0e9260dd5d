/** Cancelling an instance: once the request is recorded, the instance gets no further
    child for as long as it stays active, whatever else happens. */
module ChainCancellation {
  import opened Strings
  import opened AgentRuns
  import opened ChainTypes
  import opened ChainSpec
  import opened ChainRuns
  import ChainTheorems

  predicate Cancelled(s: Status) {
    s.active.Some? && s.cancelRequested == Some(s.active.value.instance)
  }

  /** From a cancelled status: still cancelled on the same child, or released. */
  predicate Stays(s: Status, s': Status) {
    Cancelled(s) ==> s'.active.None? || (s'.active == s.active && Cancelled(s'))
  }

  lemma CancelledReconcile(c: Chain, paused: bool, runs: map<Name, Child>, uid: string, now: int)
    requires Cancelled(c.status) && Reconcile(c, paused, runs, uid, now).Write?
    ensures var o := Reconcile(c, paused, runs, uid, now); o.runs == runs && Stays(c.status, o.status)
  {
  }

  ghost predicate Sound(w: World) {
    w.worker.Patching? && w.chain.Some? ==> Stays(w.chain.value.status, w.worker.status)
  }

  lemma StepSound(w: World, a: Action, w': World)
    requires ChainTheorems.Sound(w) && Sound(w) && Step(w, a, w')
    ensures Sound(w')
  {
    if WorkerStep(w, a, w') && a.Act? && w'.worker.Patching? && Cancelled(w.worker.copy.status) {
      ChainTheorems.ActSound(w, a, w');
      CancelledReconcile(w.worker.copy, a.paused, w.runs, a.uid, w.worker.now);
    }
  }

  lemma {:induction false} RunSound(tr: Trace)
    requires Run(tr)
    ensures Sound(Last(tr))
  {
    if tr.Then? {
      RunSound(tr.before);
      ChainTheorems.RunSound(tr.before);
      StepSound(Last(tr.before), tr.action, tr.world);
    }
  }

  lemma CancelledStep(w: World, a: Action, w': World)
    requires ChainTheorems.Sound(w) && Sound(w) && Step(w, a, w')
    requires w.chain.Some? && w.chain.value.finalizer && Cancelled(w.chain.value.status)
    ensures w'.created == w.created
    ensures w'.chain.Some? ==> Stays(w.chain.value.status, w'.chain.value.status)
  {
    if WorkerStep(w, a, w') && a.Act? {
      var o := Reconcile(w.worker.copy, a.paused, w.runs, a.uid, w.worker.now);
      if o.Write? {
        ChainTheorems.ReconcileWarranted(w.worker.copy, a.paused, w.runs, a.uid, w.worker.now);
        CancelledReconcile(w.worker.copy, a.paused, w.runs, a.uid, w.worker.now);
      }
    }
  }

  /** The instance stayed active from `earlier` to `tr`. */
  ghost predicate StaysActive(tr: Trace, earlier: Trace) {
    && Last(tr).chain.Some? && Last(tr).chain.value.status.active.Some?
    && (tr == earlier || (tr.Then? && StaysActive(tr.before, earlier)))
  }

  /** In every run: while a cancelled instance stays active, no child is created and
      the active child does not change. */
  lemma {:induction false} CancelledGetsNoSuccessor(tr: Trace, earlier: Trace)
    requires Run(tr) && StaysActive(tr, earlier)
    requires Last(earlier).chain.Some? && Cancelled(Last(earlier).chain.value.status)
    ensures Last(tr).created == Last(earlier).created
    ensures Last(tr).chain.value.status.active == Last(earlier).chain.value.status.active
    ensures Cancelled(Last(tr).chain.value.status)
  {
    if tr != earlier {
      CancelledGetsNoSuccessor(tr.before, earlier);
      RunSound(tr.before);
      ChainTheorems.RunSound(tr.before);
      CancelledStep(Last(tr.before), tr.action, tr.world);
    }
  }
}
