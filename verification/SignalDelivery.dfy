/** Delivery of adverse signals to situations. One worker reconciles signals; its
    steps are single reads and patches, and it may crash between any two of them.
    Users, the source watchers and the situation controller act in between. */
module SignalDelivery {
  import opened Strings
  import opened SituationBuffer

  datatype SignalPhase = New | Waiting | Accepted | Rejected

  /** A signal refers to a situation by name; its spec never changes. `situationUid`
      and `sequence` are the status fields that say where it was counted. */
  datatype Signal = Signal(
    ref: string, dedupeKey: string, body: string, valid: bool,
    finalizer: bool, deleting: bool,
    phase: SignalPhase, situationUid: string, sequence: int)

  datatype Situation = Situation(uid: string, deleting: bool, buffer: Buffer, status: Status)

  /** Where the worker stands. `copy` is the situation as the record step left it;
      the fast path clears the receipt in that copy. */
  datatype Worker =
    | Idle
    | Adding(signal: string)
    | Begun(signal: string)
    | Recorded(signal: string, copy: Situation)
    | Acknowledged(signal: string, copy: Situation)
    | Clearing(signal: string, uid: string)
    | Removing(signal: string)

  /** One report counted: which signal made it ("" for a watched source), and in
      which sequence of which situation. */
  datatype Entry = Entry(report: string, uid: string, sequence: int)

  /** `log` is the history of counted reports; `uids` and `reports` are the
      situation and signal identities ever used. */
  datatype World = World(
    situations: map<string, Situation>, signals: map<string, Signal>, worker: Worker,
    log: seq<Entry>, uids: set<string>, reports: set<string>)

  const INITIAL := World(map[], map[], Idle, [], {}, {})

  datatype Action =
    | CreateSignal(id: string, signal: Signal)
    | DeleteSignal(id: string)
    | CreateSituation(name: string, uid: string, buffer: Buffer)
    | MarkDeleting(name: string)
    | RemoveSituation(name: string)
    | EditBuffer(name: string, buffer: Buffer)
    | ReportSource(name: string, event: string, body: string, now: int)
    | Settle(name: string, status: Status)
    | Begin(id: string)
    | AddFinalizer
    | Reject
    | Postpone(now: int)
    | Record(now: int)
    | Acknowledge
    | ClearCopy
    | ClearCurrent
    | RemoveFinalizer
    | Crash

  /** The grouping key of the event a signal reports, scoped to the situation object. */
  function EventId(uid: string, g: Signal): string {
    uid + "/" + g.dedupeKey
  }

  ghost function Attempt(w: World, id: string, now: int): Delivery
    requires id in w.signals && w.signals[id].ref in w.situations
  {
    var g := w.signals[id];
    var s := w.situations[g.ref];
    RecordSignal(s.status, EventId(s.uid, g), g.body, id, now, s.buffer)
  }

  ghost predicate CanDeliver(w: World, id: string, now: int)
    requires id in w.signals
  {
    var g := w.signals[id];
    && g.valid && g.ref in w.situations && !w.situations[g.ref].deleting
    && Attempt(w, id, now).delivered
  }

  /** The worker's next position after reading a signal. */
  function Dispatch(id: string, g: Signal): Worker {
    if g.deleting then (if g.finalizer then Clearing(id, g.situationUid) else Idle)
    else if g.phase == Accepted then Clearing(id, g.situationUid)
    else if g.phase == Rejected then (if g.finalizer then Removing(id) else Idle)
    else if !g.finalizer then Adding(id)
    else Begun(id)
  }

  /** Status changes the situation controller makes: never to the buffered events,
      the counters or the sequence. */
  predicate SettledFrom(s: Status, s': Status) {
    && s'.events == s.events && s'.sequence == s.sequence
    && s'.eventCount == s.eventCount && s'.duplicateCount == s.duplicateCount
  }

  ghost predicate EnvironmentStep(w: World, a: Action, w': World) {
    match a
    case CreateSignal(id, g) =>
      && id != "" && id !in w.reports && !g.finalizer && !g.deleting && g.phase == New && g.situationUid == ""
      && w' == w.(signals := w.signals[id := g], reports := w.reports + {id})
    case DeleteSignal(id) =>
      && id in w.signals
      && w' == if w.signals[id].finalizer
               then w.(signals := w.signals[id := w.signals[id].(deleting := true)])
               else w.(signals := w.signals - {id})
    case CreateSituation(n, uid, b) =>
      && n !in w.situations && uid != "" && uid !in w.uids
      && w' == w.(situations := w.situations[n := Situation(uid, false, b, EMPTY_STATUS)], uids := w.uids + {uid})
    case MarkDeleting(n) =>
      n in w.situations && w' == w.(situations := w.situations[n := w.situations[n].(deleting := true)])
    case RemoveSituation(n) =>
      n in w.situations && w' == w.(situations := w.situations - {n})
    case EditBuffer(n, b) =>
      n in w.situations && w' == w.(situations := w.situations[n := w.situations[n].(buffer := b)])
    case ReportSource(n, event, body, now) =>
      && n in w.situations
      && var s := w.situations[n];
         var r := RecordSource(s.status, event, body, now, s.buffer);
         && r.Some?
         && w' == w.(
              situations := w.situations[n := s.(status := r.value)],
              log := w.log + [Entry("", s.uid, r.value.sequence)])
    case Settle(n, status) =>
      && n in w.situations && SettledFrom(w.situations[n].status, status)
      && w' == w.(situations := w.situations[n := w.situations[n].(status := status)])
    case _ => false
  }

  /** Recording: a new report is counted, a known receipt is only acknowledged. */
  ghost function Recording(w: World, id: string, now: int): World
    requires id in w.signals && CanDeliver(w, id, now)
  {
    var g := w.signals[id];
    var d := Attempt(w, id, now);
    var s := w.situations[g.ref].(status := d.status);
    w.(
      situations := w.situations[g.ref := s],
      log := if d.changed then w.log + [Entry(id, s.uid, d.status.sequence)] else w.log,
      worker := Recorded(id, s))
  }

  /** The fast path writes back the whole event list of its copy: a merge patch
      replaces lists (section 2 of RFC 7396). */
  ghost function ClearedCopy(w: World, id: string, copy: Situation): World
    requires id in w.signals && w.signals[id].ref in w.situations
  {
    var n := w.signals[id].ref;
    var s := w.situations[n];
    if HasReceipt(copy.status.events, id) then
      w.(
        situations := w.situations[n := s.(status := s.status.(events := Clear(copy.status.events, id)))],
        worker := Removing(id))
    else w.(worker := Removing(id))
  }

  ghost predicate WorkerStep(w: World, a: Action, w': World) {
    match a
    case Begin(id) =>
      w.worker == Idle && id in w.signals && w' == w.(worker := Dispatch(id, w.signals[id]))
    case AddFinalizer =>
      && w.worker.Adding? && w.worker.signal in w.signals
      && w' == w.(signals := w.signals[w.worker.signal := w.signals[w.worker.signal].(finalizer := true)], worker := Idle)
    case Reject =>
      && w.worker.Begun? && w.worker.signal in w.signals && !w.signals[w.worker.signal].valid
      && var id := w.worker.signal;
         w' == w.(
           signals := w.signals[id := w.signals[id].(phase := Rejected, situationUid := "", sequence := 0)], worker := Idle)
    case Postpone(now) =>
      && w.worker.Begun? && w.worker.signal in w.signals
      && var id := w.worker.signal;
         && w.signals[id].valid && !CanDeliver(w, id, now)
         && w' == w.(
              signals := w.signals[id := w.signals[id].(phase := Waiting, situationUid := "", sequence := 0)], worker := Idle)
    case Record(now) =>
      && w.worker.Begun? && w.worker.signal in w.signals && CanDeliver(w, w.worker.signal, now)
      && w' == Recording(w, w.worker.signal, now)
    case Acknowledge =>
      && w.worker.Recorded? && w.worker.signal in w.signals
      && var (id, copy) := (w.worker.signal, w.worker.copy);
         w' == w.(
           signals := w.signals[id :=
             w.signals[id].(phase := Accepted, situationUid := copy.uid, sequence := copy.status.sequence)],
           worker := Acknowledged(id, copy))
    case ClearCopy =>
      && w.worker.Acknowledged? && w.worker.signal in w.signals && w.signals[w.worker.signal].ref in w.situations
      && w' == ClearedCopy(w, w.worker.signal, w.worker.copy)
    case ClearCurrent =>
      && w.worker.Clearing? && w.worker.signal in w.signals
      && var (id, uid) := (w.worker.signal, w.worker.uid);
         var n := w.signals[id].ref;
         w' == if n in w.situations && (uid == "" || uid == w.situations[n].uid)
               then
                 var s := w.situations[n];
                 w.(
                   situations := w.situations[n := s.(status := s.status.(events := Clear(s.status.events, id)))],
                   worker := Removing(id))
               else w.(worker := Removing(id))
    case RemoveFinalizer =>
      && w.worker.Removing? && w.worker.signal in w.signals
      && var id := w.worker.signal;
         w' == if w.signals[id].deleting
               then w.(signals := w.signals - {id}, worker := Idle)
               else w.(signals := w.signals[id := w.signals[id].(finalizer := false)], worker := Idle)
    case Crash => w' == w.(worker := Idle)
    case _ => false
  }

  ghost predicate Step(w: World, a: Action, w': World) {
    EnvironmentStep(w, a, w') || WorkerStep(w, a, w')
  }

  datatype Trace = Start | Then(before: Trace, action: Action, world: World)

  function Last(tr: Trace): World {
    if tr.Start? then INITIAL else tr.world
  }

  ghost predicate Run(tr: Trace) {
    tr.Then? ==> Run(tr.before) && Step(Last(tr.before), tr.action, tr.world)
  }

  /** A copy without receipts other than that of `id`. */
  ghost predicate OnlyReceipt(events: seq<Event>, id: string) {
    forall r :: HasReceipt(events, r) ==> r == id
  }

  /** The fast path's patch lands on the very object it recorded in, which the code
      does not check, or carries no receipt but its own. */
  ghost predicate Steady(w: World, a: Action) {
    a.ClearCopy? && w.worker.Acknowledged? && w.worker.signal in w.signals && w.signals[w.worker.signal].ref in w.situations ==>
      || w.situations[w.signals[w.worker.signal].ref].uid == w.worker.copy.uid
      || OnlyReceipt(w.worker.copy.status.events, w.worker.signal)
  }

  ghost predicate SteadyRun(tr: Trace) {
    tr.Then? ==> SteadyRun(tr.before) && Steady(Last(tr.before), tr.action)
  }
}
