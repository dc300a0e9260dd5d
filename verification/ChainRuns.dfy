/** Runs of one agent chain: users edit, cancel, suspend and delete it, its children
    progress and are deleted, and the controller reads, acts and patches in separate
    steps, crashing between any two of them. */
module ChainRuns {
  import opened Strings
  import opened AgentRuns
  import opened ChainTypes
  import opened ChainCadence
  import opened ChainSpec

  datatype Worker =
    | Resting
    | Loaded(copy: Chain, now: int)
    | Finalizing(install: bool)
    | Patching(status: Status, now: int)

  /** A child the controller created, with the run of the step before it as it was. */
  datatype Creation = Creation(
    instance: Instance, index: nat, generation: int, digest: Workflow, prior: Option<Child>)

  /** `chain` is None once the object is gone. */
  datatype World = World(
    uid: string, chain: Option<Chain>, runs: map<Name, Child>, worker: Worker, clock: int, created: seq<Creation>)

  datatype Action =
    | Tick(seconds: nat)
    | EditSpec(spec: Spec)
    | EditLabels(dynamic: string, repository: string)
    | RequestStart(token: string)
    | RequestCancel(request: CancelToken)
    | DeleteChain
    | Progress(name: Name, run: Child)
    | DeleteRun(name: Name)
    | CreateForeign(name: Name, run: Child)
    | Load
    | Act(paused: bool, uid: string)
    | PatchFinalizer
    | PatchStatus
    | Crash

  function WithLabels(w: Workflow, dynamic: string, repository: string): Workflow {
    w.(dynamic := dynamic, repository := repository)
  }

  /** The same child later: its spec is immutable and a terminal phase is final. */
  predicate Later(r: Child, r': Child) {
    && r' == r.(phase := r'.phase, completedAt := r'.completedAt, action := r'.action, output := r'.output)
    && (Terminal(r.phase) ==> r'.phase == r.phase)
  }

  predicate ChainStep(w: World, a: Action, w': World) {
    && w.chain.Some?
    && var c := w.chain.value;
       match a
       case EditSpec(spec) =>
         // labels are not part of the spec, and a spec edit bumps the generation
         && spec.workflow == WithLabels(spec.workflow, c.spec.workflow.dynamic, c.spec.workflow.repository)
         && w' == w.(chain := Some(c.(spec := spec, generation := c.generation + 1)))
       case EditLabels(dynamic, repository) =>
         w' == w.(chain := Some(c.(spec := c.spec.(workflow := WithLabels(c.spec.workflow, dynamic, repository)))))
       case RequestStart(token) => w' == w.(chain := Some(c.(startToken := token)))
       case RequestCancel(request) => w' == w.(chain := Some(c.(cancel := request)))
       case DeleteChain => w' == w.(chain := if c.finalizer then Some(c.(deleting := true)) else None)
       case _ => false
  }

  predicate RunStep(w: World, a: Action, w': World) {
    match a
    case Tick(seconds) => w' == w.(clock := w.clock + seconds)
    case Progress(name, run) =>
      name in w.runs && Later(w.runs[name], run) && w' == w.(runs := w.runs[name := run])
    case DeleteRun(name) => name in w.runs && w' == w.(runs := w.runs - {name})
    case CreateForeign(name, run) =>
      name !in w.runs && run.owner != w.uid && w' == w.(runs := w.runs[name := run])
    case _ => false
  }

  function PriorRun(c: Chain, runs: map<Name, Child>): Option<Child> {
    if c.status.active.Some? && c.status.active.value.ref.Some? && c.status.active.value.ref.value in runs
    then Some(runs[c.status.active.value.ref.value])
    else None
  }

  /** The log entry for the child that `a` points to. */
  function CreationOf(c: Chain, a: Active, runs: map<Name, Child>): Creation
    requires a.digest.Some?
  {
    Creation(a.instance, StepAt(a.digest.value.steps, a.step), a.generation, a.digest.value, PriorRun(c, runs))
  }

  /** A reconcile up to its patch. */
  ghost predicate Acted(w: World, c: Chain, o: Outcome, now: int, w': World) {
    match o
    case Nothing => w' == w.(worker := Resting)
    case Fail => w' == w.(worker := Resting)
    case Finalize(install) => w' == w.(worker := Finalizing(install))
    case Write(s, runs) =>
      if runs.Keys == w.runs.Keys then w' == w.(runs := runs, worker := Patching(s, now))
      else
        && s.active.Some? && s.active.value.digest.Some?
        && w' == w.(
             runs := runs, worker := Patching(s, now), created := w.created + [CreationOf(c, s.active.value, w.runs)])
  }

  ghost predicate WorkerStep(w: World, a: Action, w': World) {
    match a
    case Load =>
      w.worker.Resting? && w.chain.Some? && w' == w.(worker := Loaded(w.chain.value, w.clock))
    case Act(paused, uid) =>
      && w.worker.Loaded?
      && Acted(w, w.worker.copy, Reconcile(w.worker.copy, paused, w.runs, uid, w.worker.now), w.worker.now, w')
    case PatchFinalizer =>
      && w.worker.Finalizing?
      && w' == if w.chain.None? then w.(worker := Resting)
               else if w.worker.install then w.(worker := Resting, chain := Some(w.chain.value.(finalizer := true)))
               else if w.chain.value.deleting then w.(worker := Resting, chain := None)
               else w.(worker := Resting, chain := Some(w.chain.value.(finalizer := false)))
    case PatchStatus =>
      && w.worker.Patching?
      && w' == if w.chain.None? then w.(worker := Resting)
               else w.(worker := Resting, chain := Some(w.chain.value.(status := w.worker.status)))
    case Crash => w' == w.(worker := Resting)
    case _ => false
  }

  ghost predicate Step(w: World, a: Action, w': World) {
    ChainStep(w, a, w') || RunStep(w, a, w') || WorkerStep(w, a, w')
  }

  predicate New(c: Chain) {
    c.status == EMPTY_STATUS && !c.finalizer && !c.deleting && c.generation > 0
  }

  datatype Trace = Begin(chain: Chain, clock: int) | Then(before: Trace, action: Action, world: World)

  function Last(tr: Trace): World {
    if tr.Begin? then World(tr.chain.uid, Some(tr.chain), map[], Resting, tr.clock, []) else tr.world
  }

  ghost predicate Run(tr: Trace) {
    if tr.Begin? then New(tr.chain) else Run(tr.before) && Step(Last(tr.before), tr.action, tr.world)
  }
}
