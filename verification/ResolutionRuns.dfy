/** Runs of one adverse situation: reports and acknowledgements arrive, users edit
    the situation and its runs, and the controller reads, responds and patches in
    separate steps, crashing anywhere. */
module ResolutionRuns {
  import opened Strings
  import opened AgentRuns
  import opened SituationBuffer
  import opened SituationReconcile

  datatype Worker =
    | Idle
    | Loaded(copy: Situation, now: int)
    | Patching(copy: Situation, now: int, updated: Status)

  /** The last accepted report and the quiet period in force when it arrived. */
  datatype Report = Report(at: int, quiet: int)

  /** A responder created by the controller for a sequence. */
  datatype Creation = Creation(sequence: int, uid: string)

  datatype World = World(
    situation: Situation, runs: map<RunName, AgentRun>, worker: Worker, clock: int,
    last: Option<Report>, created: seq<Creation>, uids: set<string>)

  datatype Action =
    | Tick(seconds: nat)
    | ReportSource(event: string, body: string, snapshot: string)
    | ReportSignal(event: string, body: string, report: string, snapshot: string)
    | ClearReceipt(report: string, snapshot: string)
    | Edit(enabled: bool, buffer: Buffer, snapshot: string)
    | CreateRun(name: RunName, run: AgentRun)
    | UpdateRun(name: RunName, run: AgentRun)
    | DeleteRun(name: RunName)
    | Load
    | React(uid: string)
    | Patch(snapshot: string)
    | Crash

  function Initial(s: Situation, clock: int): World {
    World(s, map[], Idle, clock, None, [], {})
  }

  predicate New(s: Situation) {
    s.status == EMPTY_STATUS && Trim(s.snapshot) != ""
  }

  /** Every write also changes what a responder created from the object would get. */
  function Stored(w: World, s: Status, snapshot: string): World {
    w.(situation := w.situation.(status := s, snapshot := snapshot))
  }

  /** A merge patch writes the fields that differ from the copy it was made from. */
  function Merge<T(==)>(copy: T, updated: T, current: T): T {
    if updated == copy then current else updated
  }

  function MergeStatus(c: Status, u: Status, s: Status): Status {
    Status(
      Merge(c.phase, u.phase, s.phase), Merge(c.sequence, u.sequence, s.sequence), Merge(c.events, u.events, s.events),
      Merge(c.eventCount, u.eventCount, s.eventCount), Merge(c.duplicateCount, u.duplicateCount, s.duplicateCount),
      Merge(c.lastEventAt, u.lastEventAt, s.lastEventAt), Merge(c.quietUntil, u.quietUntil, s.quietUntil),
      Merge(c.resolvedAt, u.resolvedAt, s.resolvedAt), Merge(c.responder, u.responder, s.responder),
      Merge(c.pullRequest, u.pullRequest, s.pullRequest), Merge(c.holdObservedAt, u.holdObservedAt, s.holdObservedAt),
      Merge(c.holdUntil, u.holdUntil, s.holdUntil))
  }

  predicate ProperRun(uid: string, spec: string) {
    Trim(uid) != "" && Trim(spec) != ""
  }

  /** The same run later: its identity stays and a terminal phase is final. */
  predicate Later(r: AgentRun, r': AgentRun) {
    r'.uid == r.uid && (Terminal(r.phase) ==> r'.phase == r.phase) && ProperRun(r'.uid, r'.spec)
  }

  ghost function Reporting(w: World, s: Status, snapshot: string): World {
    Stored(w, s, snapshot).(last := Some(Report(w.clock, QuietSeconds(w.situation.buffer))))
  }

  ghost predicate ReportStep(w: World, a: Action, w': World) {
    var s := w.situation;
    match a
    case ReportSource(event, body, snapshot) =>
      var r := RecordSource(s.status, event, body, w.clock, s.buffer);
      Trim(snapshot) != "" && r.Some? && w' == Reporting(w, r.value, snapshot)
    case ReportSignal(event, body, report, snapshot) =>
      var d := RecordSignal(s.status, event, body, report, w.clock, s.buffer);
      Trim(snapshot) != "" && d.changed && w' == Reporting(w, d.status, snapshot)
    case _ => false
  }

  ghost predicate EnvironmentStep(w: World, a: Action, w': World) {
    match a
    case Tick(seconds) => w' == w.(clock := w.clock + seconds)
    case ClearReceipt(report, snapshot) =>
      && Trim(snapshot) != ""
      && w' == Stored(w, w.situation.status.(events := Clear(w.situation.status.events, report)), snapshot)
    case Edit(enabled, buffer, snapshot) =>
      && Trim(snapshot) != ""
      && w' == w.(situation := w.situation.(enabled := enabled, buffer := buffer, snapshot := snapshot))
    case CreateRun(name, run) =>
      && name !in w.runs && run.uid !in w.uids && ProperRun(run.uid, run.spec)
      && w' == w.(runs := w.runs[name := run], uids := w.uids + {run.uid})
    case UpdateRun(name, run) =>
      name in w.runs && Later(w.runs[name], run) && w' == w.(runs := w.runs[name := run])
    case DeleteRun(name) =>
      name in w.runs && w' == w.(runs := w.runs - {name})
    case _ => false
  }

  function Concluded(w: World, uid: string): World
    requires w.worker.Loaded?
  {
    var copy := w.worker.copy;
    var o := Conclude(copy, w.runs, uid, w.worker.now);
    var sequence := if copy.status.sequence <= 0 then 1 else copy.status.sequence;
    w.(
      runs := o.runs,
      uids := w.uids + {uid},
      created := if o.runs.Keys == w.runs.Keys then w.created else w.created + [Creation(sequence, uid)],
      worker := if o.status.None? then Idle else Patching(copy, w.worker.now, o.status.value))
  }

  ghost predicate WorkerStep(w: World, a: Action, w': World) {
    match a
    case Load => w.worker.Idle? && w' == w.(worker := Loaded(w.situation, w.clock))
    case React(uid) =>
      w.worker.Loaded? && uid !in w.uids && Trim(uid) != "" && w' == Concluded(w, uid)
    case Patch(snapshot) =>
      && w.worker.Patching? && Trim(snapshot) != ""
      && w' == Stored(w, MergeStatus(w.worker.copy.status, w.worker.updated, w.situation.status), snapshot).(worker := Idle)
    case Crash => w' == w.(worker := Idle)
    case _ => false
  }

  ghost predicate Step(w: World, a: Action, w': World) {
    ReportStep(w, a, w') || EnvironmentStep(w, a, w') || WorkerStep(w, a, w')
  }

  /** The controller has decided to resolve a situation that is not resolved yet. */
  predicate Resolving(worker: Worker) {
    worker.Patching? && worker.updated.phase == Resolved && worker.copy.status.phase != Resolved
  }

  datatype Trace = Start(situation: Situation, clock: int) | Then(before: Trace, action: Action, world: World)

  function Last(tr: Trace): World {
    if tr.Start? then Initial(tr.situation, tr.clock) else tr.world
  }

  ghost predicate Run(tr: Trace) {
    if tr.Start? then New(tr.situation) else Run(tr.before) && Step(Last(tr.before), tr.action, tr.world)
  }

  ghost predicate Continues(tr: Trace, earlier: Trace) {
    tr == earlier || (tr.Then? && Continues(tr.before, earlier))
  }
}
