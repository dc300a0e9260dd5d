/** What delivery keeps in every run, wherever the fast path's patch lands: no report is
    counted twice, a rejected one never, and the counters agree with the log. */
module DeliverySafety {
  import opened Strings
  import opened SituationBuffer
  import opened BufferTheorems
  import opened SignalDelivery

  // ----- the history -----

  /** How many reports were counted in one sequence of one situation. */
  ghost function CountIn(log: seq<Entry>, uid: string, sequence: int): nat {
    if log == [] then 0
    else
      var e := log[|log| - 1];
      CountIn(log[..|log| - 1], uid, sequence) + (if e.uid == uid && e.sequence == sequence then 1 else 0)
  }

  lemma CountAppend(log: seq<Entry>, e: Entry, uid: string, sequence: int)
    ensures CountIn(log + [e], uid, sequence) ==
      CountIn(log, uid, sequence) + (if e.uid == uid && e.sequence == sequence then 1 else 0)
  {
  }

  lemma {:induction false} CountNone(log: seq<Entry>, uid: string, sequence: int)
    requires forall e :: e in log && e.uid == uid ==> e.sequence != sequence
    ensures CountIn(log, uid, sequence) == 0
  {
    if log != [] {
      CountNone(log[..|log| - 1], uid, sequence);
      assert log[|log| - 1] in log;
    }
  }

  ghost predicate LoggedIn(log: seq<Entry>, report: string, uid: string) {
    exists q :: Entry(report, uid, q) in log
  }

  /** No signal was counted twice in the same situation. */
  ghost predicate CountedOnce(log: seq<Entry>) {
    forall i, j :: 0 <= i < j < |log| && log[i].report == log[j].report && log[i].uid == log[j].uid ==> log[i].report == ""
  }

  // ----- the invariant -----

  /** A signal counted here and neither accepted nor on its way out has its receipt here. */
  ghost predicate ReceiptKept(w: World, id: string)
    requires id in w.signals
  {
    var g := w.signals[id];
    g.ref in w.situations && LoggedIn(w.log, id, w.situations[g.ref].uid) && g.phase != Accepted &&
    (!g.deleting || w.worker == Begun(id)) ==>
      HasReceipt(w.situations[g.ref].status.events, id)
  }

  ghost predicate LogSound(w: World) {
    && CountedOnce(w.log)
    && "" !in w.uids
    && (forall e :: e in w.log ==> e.uid in w.uids && (e.report == "" || e.report in w.reports))
    && (forall m, n :: m in w.situations && n in w.situations && w.situations[m].uid == w.situations[n].uid ==> m == n)
  }

  /** No signal was counted in this situation. */
  ghost predicate NoSignals(log: seq<Entry>, uid: string) {
    forall e :: e in log && e.uid == uid ==> e.report == ""
  }

  ghost predicate Tallied(log: seq<Entry>, uids: set<string>, s: Situation) {
    && s.uid in uids && s.status.sequence >= 0 && Bounded(s.status.events)
    && (forall e :: e in log && e.uid == s.uid ==> 1 <= e.sequence <= s.status.sequence)
    && s.status.eventCount == CountIn(log, s.uid, s.status.sequence)
  }

  ghost predicate Filed(w: World, id: string)
    requires id in w.signals
  {
    && id != "" && id in w.reports
    && (w.signals[id].phase == Rejected ==> !w.signals[id].valid)
    && (forall e :: e in w.log && e.report == id ==> w.signals[id].valid)
    && ReceiptKept(w, id)
  }

  ghost predicate Clean(events: seq<Event>) {
    forall r :: !HasReceipt(events, r)
  }

  ghost predicate CopyKept(w: World, id: string, copy: Situation)
    requires id in w.signals
  {
    var n := w.signals[id].ref;
    && copy.uid in w.uids && Bounded(copy.status.events) && HasReceipt(copy.status.events, id)
    && (n in w.situations ==>
          var s := w.situations[n];
          if s.uid == copy.uid
          then s.status.sequence == copy.status.sequence && SameReceipts(s.status.events, copy.status.events)
          else NoSignals(w.log, s.uid) && Clean(s.status.events))
  }

  ghost predicate WorkerSafe(w: World) {
    (w.worker.Idle? || w.worker.signal in w.reports) &&
    match w.worker
    case Begun(id) => id in w.signals && w.signals[id].finalizer && w.signals[id].phase in {New, Waiting}
    case Recorded(id, copy) =>
      id in w.signals && w.signals[id].finalizer && w.signals[id].phase in {New, Waiting} && CopyKept(w, id, copy)
    case Acknowledged(id, copy) =>
      id in w.signals && w.signals[id].finalizer && w.signals[id].phase == Accepted && CopyKept(w, id, copy)
    case Clearing(id, uid) => id in w.signals ==> w.signals[id].phase == Accepted || w.signals[id].deleting
    case Removing(id) => id in w.signals ==> w.signals[id].phase in {Accepted, Rejected} || w.signals[id].deleting
    case _ => true
  }

  ghost predicate Safe(w: World) {
    && LogSound(w) && WorkerSafe(w)
    && (forall n :: n in w.situations ==> Tallied(w.log, w.uids, w.situations[n]))
    && (forall id :: id in w.signals ==> Filed(w, id))
  }

  // ----- counting -----

  function Opened(w: World, n: string, uid: string, b: Buffer): World {
    w.(situations := w.situations[n := Situation(uid, false, b, EMPTY_STATUS)], uids := w.uids + {uid})
  }

  /** `w` after one more report was counted in situation `n`. */
  function Counted(w: World, n: string, status: Status, report: string): World
    requires n in w.situations
  {
    w.(
      situations := w.situations[n := w.situations[n].(status := status)],
      log := w.log + [Entry(report, w.situations[n].uid, status.sequence)])
  }

  /** `w` after the receipt of the worker's signal was dropped from situation `n`. */
  function Dropped(w: World, n: string, events: seq<Event>, id: string): World
    requires n in w.situations
  {
    var s := w.situations[n];
    w.(situations := w.situations[n := s.(status := s.status.(events := events))], worker := Removing(id))
  }

  lemma CountedTally(w: World, n: string, status: Status, report: string, m: string)
    requires Safe(w) && n in w.situations && m in w.situations
    requires CountsOne(w.situations[n].status, status) && Bounded(status.events)
    ensures var w' := Counted(w, n, status, report); Tallied(w'.log, w'.uids, w'.situations[m])
  {
    var s := w.situations[m];
    var e := Entry(report, w.situations[n].uid, status.sequence);
    assert Tallied(w.log, w.uids, s) && Tallied(w.log, w.uids, w.situations[n]);
    CountAppend(w.log, e, s.uid, s.status.sequence);
    CountAppend(w.log, e, s.uid, status.sequence);
    if status.sequence > w.situations[n].status.sequence {
      CountNone(w.log, w.situations[n].uid, status.sequence);
    }
  }

  lemma CountedFiled(w: World, n: string, status: Status, report: string, id: string)
    requires Safe(w) && n in w.situations && id in w.signals
    requires forall r :: HasReceipt(status.events, r) <==> HasReceipt(w.situations[n].status.events, r) || (r == report && r != "")
    requires report != "" ==> report in w.signals && w.signals[report].ref == n && w.signals[report].valid
    ensures Filed(Counted(w, n, status, report), id)
  {
    assert Filed(w, id);
  }

  /** Counting a report that was not counted here before. */
  lemma {:induction false} CountedSafe(w: World, n: string, status: Status, report: string)
    requires Safe(w) && n in w.situations
    requires CountsOne(w.situations[n].status, status) && Bounded(status.events)
    requires forall r :: HasReceipt(status.events, r) <==> HasReceipt(w.situations[n].status.events, r) || (r == report && r != "")
    requires report != "" ==>
      && report in w.signals && w.signals[report].ref == n && w.signals[report].valid
      && !LoggedIn(w.log, report, w.situations[n].uid)
    ensures var w' := Counted(w, n, status, report);
      && LogSound(w') && (forall m :: m in w'.situations ==> Tallied(w'.log, w'.uids, w'.situations[m]))
      && (forall id :: id in w'.signals ==> Filed(w', id))
  {
    var w' := Counted(w, n, status, report);
    forall m | m in w'.situations ensures Tallied(w'.log, w'.uids, w'.situations[m]) {
      CountedTally(w, n, status, report, m);
    }
    forall id | id in w'.signals ensures Filed(w', id) {
      CountedFiled(w, n, status, report, id);
    }
    assert Tallied(w.log, w.uids, w.situations[n]);
    forall i | 0 <= i < |w.log| ensures w.log[i] in w.log && Entry(w.log[i].report, w.log[i].uid, w.log[i].sequence) in w.log {
    }
    if report != "" { assert Filed(w, report); }
  }

  /** A source report leaves the worker's copy valid: its receipt keeps the sequence. */
  lemma SourceWorkerSafe(w: World, n: string, status: Status)
    requires WorkerSafe(w) && n in w.situations
    requires CountsOne(w.situations[n].status, status) && SameReceipts(w.situations[n].status.events, status.events)
    ensures WorkerSafe(Counted(w, n, status, ""))
  {
  }

  lemma {:induction false} SourceSafe(w: World, n: string, event: string, body: string, now: int)
    requires Safe(w) && n in w.situations
    requires RecordSource(w.situations[n].status, event, body, now, w.situations[n].buffer).Some?
    ensures Safe(Counted(w, n, RecordSource(w.situations[n].status, event, body, now, w.situations[n].buffer).value, ""))
  {
    var s := w.situations[n];
    assert Tallied(w.log, w.uids, s);
    SourceReport(s.status, event, body, now, s.buffer);
    SourceBounded(s.status, event, body, now, s.buffer);
    CountedSafe(w, n, RecordSource(s.status, event, body, now, s.buffer).value, "");
    SourceWorkerSafe(w, n, RecordSource(s.status, event, body, now, s.buffer).value);
  }

  lemma {:induction false} RecordSafe(w: World, now: int)
    requires Safe(w) && w.worker.Begun? && w.worker.signal in w.signals && CanDeliver(w, w.worker.signal, now)
    ensures Safe(Recording(w, w.worker.signal, now))
  {
    var id := w.worker.signal;
    var n := w.signals[id].ref;
    var s := w.situations[n];
    var d := Attempt(w, id, now);
    assert Tallied(w.log, w.uids, s) && Filed(w, id);
    SignalReport(s.status, EventId(s.uid, w.signals[id]), w.signals[id].body, id, now, s.buffer);
    SignalBounded(s.status, EventId(s.uid, w.signals[id]), w.signals[id].body, id, now, s.buffer);
    if d.changed {
      CountedSafe(w, n, d.status, id);
      MoveSafe(Counted(w, n, d.status, id), Recorded(id, s.(status := d.status)));
    } else {
      assert w.situations[n := s.(status := d.status)] == w.situations;
      MoveSafe(w, Recorded(id, s));
    }
  }

  /** The worker moves on: leaving the begun position only weakens what signals are held to. */
  lemma {:induction false} MoveSafe(w: World, worker: Worker)
    requires LogSound(w) && (forall n :: n in w.situations ==> Tallied(w.log, w.uids, w.situations[n]))
    requires forall id :: id in w.signals ==> Filed(w, id)
    requires !worker.Begun? && WorkerSafe(w.(worker := worker))
    ensures Safe(w.(worker := worker))
  {
    var w' := w.(worker := worker);
    forall id | id in w'.signals ensures Filed(w', id) {
      assert Filed(w, id);
    }
  }

  // ----- situations -----

  lemma {:induction false} CreateSafe(w: World, n: string, uid: string, b: Buffer)
    requires Safe(w) && n !in w.situations && uid != "" && uid !in w.uids
    ensures Safe(Opened(w, n, uid, b))
  {
    var w' := Opened(w, n, uid, b);
    CountNone(w.log, uid, 0);
    forall m | m in w'.situations ensures Tallied(w'.log, w'.uids, w'.situations[m]) {
      if m != n { assert Tallied(w.log, w.uids, w.situations[m]); }
    }
    forall id | id in w'.signals ensures Filed(w', id) {
      assert Filed(w, id);
    }
    forall m | m in w.situations ensures w.situations[m].uid != uid {
      assert Tallied(w.log, w.uids, w.situations[m]);
    }
  }

  lemma {:induction false} RemoveSafe(w: World, n: string)
    requires Safe(w) && n in w.situations
    ensures Safe(w.(situations := w.situations - {n}))
  {
    var w' := w.(situations := w.situations - {n});
    forall id | id in w'.signals ensures Filed(w', id) {
      assert Filed(w, id);
    }
  }

  /** Another version of a situation with the same identity, sequence, counter and receipts. */
  lemma {:induction false} ReplaceSafe(w: World, n: string, s: Situation)
    requires Safe(w) && n in w.situations
    requires s.uid == w.situations[n].uid && s.status.sequence == w.situations[n].status.sequence
    requires s.status.eventCount == w.situations[n].status.eventCount
    requires SameReceipts(s.status.events, w.situations[n].status.events) && Bounded(s.status.events)
    ensures Safe(w.(situations := w.situations[n := s]))
  {
    var w' := w.(situations := w.situations[n := s]);
    assert Tallied(w.log, w.uids, w.situations[n]);
    forall id | id in w'.signals ensures Filed(w', id) {
      assert Filed(w, id);
    }
  }

  /** Writing back a list that keeps the receipts of all signals that still need them. */
  lemma {:induction false} ClearSafe(w: World, n: string, events: seq<Event>, id: string)
    requires Safe(w) && n in w.situations && id in w.signals && w.signals[id].ref == n && Bounded(events)
    requires w.signals[id].phase == Accepted || w.signals[id].deleting
    requires !NoSignals(w.log, w.situations[n].uid) ==>
      forall r :: HasReceipt(w.situations[n].status.events, r) && r != id ==> HasReceipt(events, r)
    ensures Safe(Dropped(w, n, events, id))
  {
    var w' := Dropped(w, n, events, id);
    assert Tallied(w.log, w.uids, w.situations[n]);
    forall j | j in w'.signals ensures Filed(w', j) {
      assert Filed(w, j);
    }
    assert Filed(w, id);
  }

  lemma {:induction false} ClearCopySafe(w: World)
    requires Safe(w) && w.worker.Acknowledged? && w.signals[w.worker.signal].ref in w.situations
    ensures Safe(ClearedCopy(w, w.worker.signal, w.worker.copy))
  {
    var (id, copy) := (w.worker.signal, w.worker.copy);
    var events := Clear(copy.status.events, id);
    forall r ensures HasReceipt(events, r) <==> HasReceipt(copy.status.events, r) && r != id {
      ClearReceipts(copy.status.events, id, r);
    }
    ClearBounded(copy.status.events, id);
    ClearSafe(w, w.signals[id].ref, events, id);
  }

  lemma {:induction false} ClearCurrentSafe(w: World, w': World)
    requires Safe(w) && WorkerStep(w, ClearCurrent, w')
    ensures Safe(w')
  {
    var id := w.worker.signal;
    var n := w.signals[id].ref;
    if n in w.situations && (w.worker.uid == "" || w.worker.uid == w.situations[n].uid) {
      var events := Clear(w.situations[n].status.events, id);
      forall r ensures HasReceipt(events, r) <==> HasReceipt(w.situations[n].status.events, r) && r != id {
        ClearReceipts(w.situations[n].status.events, id, r);
      }
      assert Tallied(w.log, w.uids, w.situations[n]);
      ClearBounded(w.situations[n].status.events, id);
      ClearSafe(w, n, events, id);
    } else {
      MoveSafe(w, Removing(id));
    }
  }

  // ----- signals -----

  /** A later version of one signal. */
  lemma {:induction false} UpdateSafe(w: World, id: string, g: Signal, worker: Worker)
    requires Safe(w) && id in w.signals && g.ref == w.signals[id].ref && g.valid == w.signals[id].valid
    requires g.phase == Rejected ==> !g.valid
    requires w.signals[id].phase == Accepted ==> g.phase == Accepted
    requires w.signals[id].deleting ==> g.deleting
    requires worker != w.worker ==> !worker.Begun?
    requires WorkerSafe(w.(signals := w.signals[id := g], worker := worker))
    ensures Safe(w.(signals := w.signals[id := g], worker := worker))
  {
    var w' := w.(signals := w.signals[id := g], worker := worker);
    forall j | j in w'.signals ensures Filed(w', j) {
      assert Filed(w, j);
    }
  }

  lemma {:induction false} CreateSignalSafe(w: World, id: string, g: Signal)
    requires Safe(w) && id != "" && id !in w.reports && g.phase == New
    ensures Safe(w.(signals := w.signals[id := g], reports := w.reports + {id}))
  {
    var w' := w.(signals := w.signals[id := g], reports := w.reports + {id});
    assert id in w.signals ==> Filed(w, id);
    forall j | j in w'.signals ensures Filed(w', j) {
      if j != id { assert Filed(w, j); }
    }
  }

  lemma {:induction false} DropSignalSafe(w: World, id: string)
    requires Safe(w) && id in w.signals
    requires w.worker.Begun? || w.worker.Recorded? || w.worker.Acknowledged? ==> w.worker.signal != id
    ensures Safe(w.(signals := w.signals - {id}))
  {
    var w' := w.(signals := w.signals - {id});
    forall j | j in w'.signals ensures Filed(w', j) {
      assert Filed(w, j);
    }
  }

  // ----- runs -----

  lemma {:induction false} SignalStepSafe(w: World, a: Action, w': World)
    requires (a.CreateSignal? || a.DeleteSignal?) && Safe(w) && EnvironmentStep(w, a, w')
    ensures Safe(w')
  {
    match a
    case CreateSignal(id, g) => CreateSignalSafe(w, id, g);
    case DeleteSignal(id) =>
      assert Filed(w, id);
      if w.signals[id].finalizer {
        UpdateSafe(w, id, w.signals[id].(deleting := true), w.worker);
      } else {
        DropSignalSafe(w, id);
      }
  }

  lemma {:induction false} EnvironmentSafe(w: World, a: Action, w': World)
    requires Safe(w) && EnvironmentStep(w, a, w')
    ensures Safe(w')
  {
    match a
    case CreateSituation(n, uid, b) => CreateSafe(w, n, uid, b);
    case RemoveSituation(n) => RemoveSafe(w, n);
    case ReportSource(n, event, body, now) => SourceSafe(w, n, event, body, now);
    case MarkDeleting(n) =>
      assert Tallied(w.log, w.uids, w.situations[n]);
      ReplaceSafe(w, n, w.situations[n].(deleting := true));
    case EditBuffer(n, b) =>
      assert Tallied(w.log, w.uids, w.situations[n]);
      ReplaceSafe(w, n, w.situations[n].(buffer := b));
    case Settle(n, status) =>
      assert Tallied(w.log, w.uids, w.situations[n]);
      ReplaceSafe(w, n, w.situations[n].(status := status));
    case _ => SignalStepSafe(w, a, w');
  }

  lemma {:induction false} BeginSafe(w: World, id: string)
    requires Safe(w) && w.worker == Idle && id in w.signals
    ensures Safe(w.(worker := Dispatch(id, w.signals[id])))
  {
    var w' := w.(worker := Dispatch(id, w.signals[id]));
    assert Filed(w, id);
    forall j | j in w'.signals ensures Filed(w', j) {
      assert Filed(w, j);
    }
  }

  lemma {:induction false} RemoveFinalizerSafe(w: World, w': World)
    requires Safe(w) && WorkerStep(w, RemoveFinalizer, w')
    ensures Safe(w')
  {
    var id := w.worker.signal;
    if w.signals[id].deleting {
      DropSignalSafe(w, id);
      MoveSafe(w.(signals := w.signals - {id}), Idle);
    } else {
      assert Filed(w, id);
      UpdateSafe(w, id, w.signals[id].(finalizer := false), Idle);
    }
  }

  lemma {:induction false} WorkerStepSafe(w: World, a: Action, w': World)
    requires Safe(w) && WorkerStep(w, a, w')
    ensures Safe(w')
  {
    match a
    case Begin(id) => BeginSafe(w, id);
    case AddFinalizer =>
      assert Filed(w, w.worker.signal);
      UpdateSafe(w, w.worker.signal, w.signals[w.worker.signal].(finalizer := true), Idle);
    case Reject =>
      UpdateSafe(w, w.worker.signal, w.signals[w.worker.signal].(phase := Rejected, situationUid := "", sequence := 0), Idle);
    case Postpone(_) =>
      UpdateSafe(w, w.worker.signal, w.signals[w.worker.signal].(phase := Waiting, situationUid := "", sequence := 0), Idle);
    case Record(now) => RecordSafe(w, now);
    case Acknowledge => UpdateSafe(w, w.worker.signal, w'.signals[w.worker.signal], w'.worker);
    case ClearCopy => ClearCopySafe(w);
    case ClearCurrent => ClearCurrentSafe(w, w');
    case RemoveFinalizer => RemoveFinalizerSafe(w, w');
    case Crash => MoveSafe(w, Idle);
  }

  lemma {:induction false} StepSafe(w: World, a: Action, w': World)
    requires Safe(w) && Step(w, a, w')
    ensures Safe(w')
  {
    if EnvironmentStep(w, a, w') {
      EnvironmentSafe(w, a, w');
    } else {
      WorkerStepSafe(w, a, w');
    }
  }

  lemma {:induction false} RunSafe(tr: Trace)
    requires Run(tr)
    ensures Safe(Last(tr))
  {
    if tr.Then? {
      RunSafe(tr.before);
      StepSafe(Last(tr.before), tr.action, tr.world);
    }
  }

  /** At-most-once delivery, in every run without any condition: no signal is counted
      twice in one situation, a rejected one is never counted, a situation's counter is
      the number of reports counted in its current sequence, and its buffer is bounded. */
  lemma {:induction false} AtMostOnce(tr: Trace)
    requires Run(tr)
    ensures CountedOnce(Last(tr).log)
    ensures forall id, e :: id in Last(tr).signals && Last(tr).signals[id].phase == Rejected && e in Last(tr).log ==>
      e.report != id
    ensures forall n :: n in Last(tr).situations ==>
      var s := Last(tr).situations[n];
      s.status.eventCount == CountIn(Last(tr).log, s.uid, s.status.sequence) && Bounded(s.status.events)
  {
    RunSafe(tr);
    var w := Last(tr);
    forall id | id in w.signals ensures Filed(w, id) {
    }
    forall n | n in w.situations ensures Tallied(w.log, w.uids, w.situations[n]) {
    }
  }

  // ----- receipts -----

  lemma EnvironmentKeepsReceipts(w: World, a: Action, w': World, n: string, r: string)
    requires EnvironmentStep(w, a, w') && n in w.situations && n in w'.situations
    requires w'.situations[n].uid == w.situations[n].uid && HasReceipt(w.situations[n].status.events, r)
    ensures HasReceipt(w'.situations[n].status.events, r)
  {
    if a.ReportSource? && a.name == n {
      var s := w.situations[n];
      SourceReport(s.status, a.event, a.body, a.now, s.buffer);
    }
  }

  lemma RecordKeepsReceipts(w: World, now: int, n: string, r: string)
    requires w.worker.Begun? && w.worker.signal in w.signals && CanDeliver(w, w.worker.signal, now)
    requires n in w.situations && HasReceipt(w.situations[n].status.events, r)
    ensures HasReceipt(Recording(w, w.worker.signal, now).situations[n].status.events, r)
  {
    var g := w.signals[w.worker.signal];
    if g.ref == n {
      SignalReport(w.situations[n].status, EventId(w.situations[n].uid, g), g.body, w.worker.signal, now, w.situations[n].buffer);
    }
  }

  lemma CopyKeepsReceipts(w: World, n: string, r: string)
    requires Safe(w) && w.worker.Acknowledged? && w.worker.signal in w.signals && w.signals[w.worker.signal].ref in w.situations
    requires n in w.situations && HasReceipt(w.situations[n].status.events, r) && w.worker.signal != r
    ensures HasReceipt(ClearedCopy(w, w.worker.signal, w.worker.copy).situations[n].status.events, r)
  {
    assert CopyKept(w, w.worker.signal, w.worker.copy);
    ClearReceipts(w.worker.copy.status.events, w.worker.signal, r);
  }

  lemma WorkerKeepsReceipts(w: World, a: Action, w': World, n: string, r: string)
    requires Safe(w) && WorkerStep(w, a, w') && n in w.situations && n in w'.situations
    requires HasReceipt(w.situations[n].status.events, r)
    requires (a.ClearCopy? || a.ClearCurrent?) ==> w.worker.signal != r
    ensures HasReceipt(w'.situations[n].status.events, r)
  {
    match a
    case Record(now) => RecordKeepsReceipts(w, now, n, r);
    case ClearCopy => CopyKeepsReceipts(w, n, r);
    case ClearCurrent => ClearReceipts(w.situations[n].status.events, w.worker.signal, r);
    case _ =>
  }

  /** Receipt durability: in any step of any run, a receipt leaves a situation that
      stays only through the worker clearing its own signal, and only once that
      signal is accepted or being deleted. */
  lemma {:induction false} ReceiptsDurable(tr: Trace, a: Action, w': World, n: string, r: string)
    requires Run(tr) && Step(Last(tr), a, w')
    requires n in Last(tr).situations && n in w'.situations && w'.situations[n].uid == Last(tr).situations[n].uid
    requires HasReceipt(Last(tr).situations[n].status.events, r) && !HasReceipt(w'.situations[n].status.events, r)
    ensures (a.ClearCopy? || a.ClearCurrent?) && Last(tr).worker.signal == r
    ensures r in Last(tr).signals && (Last(tr).signals[r].phase == Accepted || Last(tr).signals[r].deleting)
  {
    var w := Last(tr);
    RunSafe(tr);
    if EnvironmentStep(w, a, w') {
      EnvironmentKeepsReceipts(w, a, w', n, r);
    } else if !((a.ClearCopy? || a.ClearCurrent?) && w.worker.signal == r) {
      WorkerKeepsReceipts(w, a, w', n, r);
    }
  }
}
