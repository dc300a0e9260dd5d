/** What delivery keeps in steady runs besides: every receipt and every accepted signal
    stands for a report counted where it says. */
module DeliveryTheorems {
  import opened Strings
  import opened SituationBuffer
  import opened BufferTheorems
  import opened SignalDelivery
  import opened DeliverySafety

  // ----- the invariant -----

  /** A receipt belongs to a signal that still carries its finalizer and was counted
      in the current sequence of this very situation. */
  ghost predicate ReceiptSound(w: World, n: string, r: string)
    requires n in w.situations
  {
    var s := w.situations[n];
    && r in w.signals && w.signals[r].ref == n && w.signals[r].finalizer
    && Entry(r, s.uid, s.status.sequence) in w.log
    && (w.signals[r].phase == Accepted ==> w.signals[r].situationUid == s.uid)
  }

  ghost predicate ReceiptsBacked(w: World) {
    forall n, r :: n in w.situations && HasReceipt(w.situations[n].status.events, r) ==> ReceiptSound(w, n, r)
  }

  /** The status of a signal names where it was counted, once it is accepted. */
  ghost predicate Named(log: seq<Entry>, id: string, g: Signal) {
    if g.phase == Accepted then Entry(id, g.situationUid, g.sequence) in log else g.situationUid == ""
  }

  ghost predicate AllNamed(w: World) {
    forall id :: id in w.signals ==> Named(w.log, id, w.signals[id])
  }

  ghost predicate CopyBacked(w: World, id: string, copy: Situation) {
    Entry(id, copy.uid, copy.status.sequence) in w.log && !HasReceipt(copy.status.events, "")
  }

  ghost predicate WorkerBacked(w: World) {
    match w.worker
    case Recorded(id, copy) => CopyBacked(w, id, copy)
    case Acknowledged(id, copy) => CopyBacked(w, id, copy) && (id in w.signals ==> w.signals[id].situationUid == copy.uid)
    case Clearing(id, uid) => id in w.signals ==> w.signals[id].situationUid == uid
    case Removing(id) =>
      id in w.signals && w.signals[id].ref in w.situations ==>
        !HasReceipt(w.situations[w.signals[id].ref].status.events, id)
    case _ => true
  }

  ghost predicate Backed(w: World) {
    ReceiptsBacked(w) && AllNamed(w) && WorkerBacked(w)
  }

  ghost predicate Sound(w: World) {
    Safe(w) && Backed(w)
  }

  // ----- receipts -----

  /** A receipt that was there before, in the same sequence of the same situation. */
  ghost predicate WasThere(w: World, w': World, n: string, r: string)
    requires n in w'.situations
  {
    && n in w.situations && HasReceipt(w.situations[n].status.events, r)
    && w'.situations[n].uid == w.situations[n].uid
    && w'.situations[n].status.sequence == w.situations[n].status.sequence
  }

  /** A later version of a signal that may have a receipt. */
  predicate Carries(g: Signal, g': Signal) {
    && g'.ref == g.ref && g'.finalizer
    && (g'.phase == Accepted ==> g.phase == Accepted && g'.situationUid == g.situationUid)
  }

  /** A step that adds no receipt and takes no signal's backing away. */
  lemma {:induction false} ReceiptsStay(w: World, w': World)
    requires ReceiptsBacked(w) && forall e :: e in w.log ==> e in w'.log
    requires forall n, r :: n in w'.situations && HasReceipt(w'.situations[n].status.events, r) ==>
      WasThere(w, w', n, r) && r in w'.signals && (r in w.signals && w.signals[r].finalizer ==> Carries(w.signals[r], w'.signals[r]))
    ensures ReceiptsBacked(w')
  {
    forall n, r | n in w'.situations && HasReceipt(w'.situations[n].status.events, r) ensures ReceiptSound(w', n, r) {
      assert WasThere(w, w', n, r) && ReceiptSound(w, n, r);
    }
  }

  // ----- steps of the environment -----

  lemma {:induction false} CreateSignalBacked(w: World, id: string, g: Signal, w': World)
    requires Sound(w) && EnvironmentStep(w, CreateSignal(id, g), w')
    ensures Backed(w')
  {
    forall n, r | n in w'.situations && HasReceipt(w'.situations[n].status.events, r) ensures WasThere(w, w', n, r) && r != id {
      assert ReceiptSound(w, n, r) && Filed(w, r);
    }
    ReceiptsStay(w, w');
  }

  lemma {:induction false} DeleteSignalBacked(w: World, id: string, w': World)
    requires Sound(w) && EnvironmentStep(w, DeleteSignal(id), w')
    ensures Backed(w')
  {
    forall n, r | n in w'.situations && HasReceipt(w'.situations[n].status.events, r)
      ensures WasThere(w, w', n, r) && r in w'.signals && Carries(w.signals[r], w'.signals[r])
    {
      assert ReceiptSound(w, n, r);
    }
    ReceiptsStay(w, w');
  }

  /** A situation under a name holds no receipt that was not there before. */
  ghost predicate AddsNone(w: World, n: string, s: Situation) {
    forall r :: HasReceipt(s.status.events, r) ==>
      && n in w.situations && HasReceipt(w.situations[n].status.events, r)
      && s.uid == w.situations[n].uid && s.status.sequence == w.situations[n].status.sequence
  }

  lemma {:induction false} SituationsBacked(w: World, w': World)
    requires Backed(w) && w'.signals == w.signals && w'.worker == w.worker && forall e :: e in w.log ==> e in w'.log
    requires forall n :: n in w'.situations ==> AddsNone(w, n, w'.situations[n])
    ensures Backed(w')
  {
    forall n, r | n in w'.situations && HasReceipt(w'.situations[n].status.events, r) ensures ReceiptSound(w', n, r) {
      assert AddsNone(w, n, w'.situations[n]) && ReceiptSound(w, n, r);
    }
    forall id | id in w'.signals ensures Named(w'.log, id, w'.signals[id]) {
      assert Named(w.log, id, w.signals[id]);
    }
  }

  lemma {:induction false} SourceBacked(w: World, a: Action, w': World)
    requires Backed(w) && a.ReportSource? && EnvironmentStep(w, a, w')
    ensures Backed(w')
  {
    var s := w.situations[a.name];
    SourceReport(s.status, a.event, a.body, a.now, s.buffer);
    assert AddsNone(w, a.name, w'.situations[a.name]);
    SituationsBacked(w, w');
  }

  lemma {:induction false} ReplacedBacked(w: World, a: Action, w': World)
    requires Backed(w) && EnvironmentStep(w, a, w')
    requires a.CreateSituation? || a.MarkDeleting? || a.RemoveSituation? || a.EditBuffer? || a.Settle?
    ensures Backed(w')
  {
    SituationsBacked(w, w');
  }

  lemma {:induction false} EnvironmentBacked(w: World, a: Action, w': World)
    requires Sound(w) && EnvironmentStep(w, a, w')
    ensures Backed(w')
  {
    match a
    case CreateSignal(id, g) => CreateSignalBacked(w, id, g, w');
    case DeleteSignal(id) => DeleteSignalBacked(w, id, w');
    case ReportSource(_, _, _, _) => SourceBacked(w, a, w');
    case _ => ReplacedBacked(w, a, w');
  }

  // ----- steps of the worker -----

  /** A signal that is not valid has no receipt. */
  lemma {:induction false} InvalidHasNone(w: World, id: string, n: string)
    requires Sound(w) && id in w.signals && !w.signals[id].valid && n in w.situations
    ensures !HasReceipt(w.situations[n].status.events, id)
  {
    assert Filed(w, id);
    assert HasReceipt(w.situations[n].status.events, id) ==> ReceiptSound(w, n, id);
  }

  lemma {:induction false} BeginBacked(w: World, id: string, w': World)
    requires Sound(w) && WorkerStep(w, Begin(id), w')
    ensures Backed(w')
  {
    ReceiptsStayHere(w, w');
    assert Filed(w, id);
    if w'.worker.Removing? && w.signals[id].ref in w.situations {
      InvalidHasNone(w, id, w.signals[id].ref);
    }
  }

  /** Situations, signals and log stay as they are. */
  lemma {:induction false} ReceiptsStayHere(w: World, w': World)
    requires ReceiptsBacked(w) && w'.situations == w.situations && w'.signals == w.signals && w'.log == w.log
    ensures ReceiptsBacked(w')
  {
    forall n, r | n in w'.situations && HasReceipt(w'.situations[n].status.events, r) ensures ReceiptSound(w', n, r) {
      assert ReceiptSound(w, n, r);
    }
  }

  /** A patch of one signal that accepts nothing. */
  lemma {:induction false} PatchBacked(w: World, a: Action, w': World)
    requires Sound(w) && WorkerStep(w, a, w') && (a.AddFinalizer? || a.Reject? || a.Postpone?)
    ensures Backed(w')
  {
    forall n, r | n in w'.situations && HasReceipt(w'.situations[n].status.events, r)
      ensures WasThere(w, w', n, r) && r in w'.signals && r in w.signals && Carries(w.signals[r], w'.signals[r])
    {
      assert ReceiptSound(w, n, r);
    }
    ReceiptsStay(w, w');
  }

  /** The receipts after a recording: those before, and that of the worker's signal. */
  lemma {:induction false} RecordBacked(w: World, now: int, w': World)
    requires Sound(w) && WorkerStep(w, Record(now), w')
    ensures Backed(w')
  {
    var id := w.worker.signal;
    var n := w.signals[id].ref;
    var s := w.situations[n];
    var d := Attempt(w, id, now);
    SignalReport(s.status, EventId(s.uid, w.signals[id]), w.signals[id].body, id, now, s.buffer);
    assert Entry(id, s.uid, d.status.sequence) in w'.log by {
      if !d.changed { assert ReceiptSound(w, n, id); }
    }
    forall m, r | m in w'.situations && HasReceipt(w'.situations[m].status.events, r) ensures ReceiptSound(w', m, r) && r != "" {
      RecordedReceipt(w, now, w', m, r);
    }
    assert n in w'.situations && w'.situations[n].status == d.status;
  }

  lemma {:induction false} RecordedReceipt(w: World, now: int, w': World, m: string, r: string)
    requires Sound(w) && WorkerStep(w, Record(now), w') && m in w'.situations && HasReceipt(w'.situations[m].status.events, r)
    ensures ReceiptSound(w', m, r) && r != ""
  {
    var id := w.worker.signal;
    var n := w.signals[id].ref;
    var s := w.situations[n];
    SignalReport(s.status, EventId(s.uid, w.signals[id]), w.signals[id].body, id, now, s.buffer);
    assert Filed(w, id);
    if HasReceipt(w.situations[m].status.events, r) {
      assert ReceiptSound(w, m, r) && Filed(w, r);
    }
  }

  lemma {:induction false} AcknowledgeBacked(w: World, w': World)
    requires Sound(w) && WorkerStep(w, Acknowledge, w')
    ensures Backed(w')
  {
    var (id, copy) := (w.worker.signal, w.worker.copy);
    forall n, r | n in w'.situations && HasReceipt(w'.situations[n].status.events, r) ensures ReceiptSound(w', n, r) {
      assert ReceiptSound(w, n, r) && CopyKept(w, id, copy);
    }
  }

  /** The worker's signal loses its receipt, once accepted or deleting. */
  lemma {:induction false} DropBacked(w: World, n: string, events: seq<Event>, id: string)
    requires ReceiptsBacked(w) && AllNamed(w) && n in w.situations && id in w.signals && w.signals[id].ref == n
    requires forall r :: HasReceipt(events, r) ==> HasReceipt(w.situations[n].status.events, r) && r != id
    ensures Backed(Dropped(w, n, events, id))
  {
    var w' := Dropped(w, n, events, id);
    forall m, r | m in w'.situations && HasReceipt(w'.situations[m].status.events, r) ensures ReceiptSound(w', m, r) {
      assert ReceiptSound(w, m, r);
    }
  }

  /** The fast path writes back a stale list, and yet drops exactly its own receipt. */
  lemma {:induction false} ClearCopyBacked(w: World, w': World)
    requires Sound(w) && WorkerStep(w, ClearCopy, w') && Steady(w, ClearCopy)
    ensures Backed(w')
  {
    var (id, copy) := (w.worker.signal, w.worker.copy);
    var n := w.signals[id].ref;
    var events := Clear(copy.status.events, id);
    forall r | HasReceipt(events, r) ensures HasReceipt(w.situations[n].status.events, r) && r != id {
      ClearReceipts(copy.status.events, id, r);
    }
    DropBacked(w, n, events, id);
  }

  lemma OwnReceipt(w: World, n: string, r: string)
    requires ReceiptsBacked(w) && n in w.situations
    ensures HasReceipt(w.situations[n].status.events, r) ==> ReceiptSound(w, n, r)
  {
  }

  lemma {:induction false} ClearCurrentBacked(w: World, w': World)
    requires Sound(w) && WorkerStep(w, ClearCurrent, w')
    ensures Backed(w')
  {
    var (id, uid) := (w.worker.signal, w.worker.uid);
    var n := w.signals[id].ref;
    if n in w.situations && (uid == "" || uid == w.situations[n].uid) {
      var events := Clear(w.situations[n].status.events, id);
      forall r | HasReceipt(events, r) ensures HasReceipt(w.situations[n].status.events, r) && r != id {
        ClearReceipts(w.situations[n].status.events, id, r);
      }
      DropBacked(w, n, events, id);
    } else {
      ReceiptsStayHere(w, w');
      assert Named(w.log, id, w.signals[id]);
      if n in w.situations {
        OwnReceipt(w, n, id);
      }
    }
  }

  lemma {:induction false} RemoveFinalizerBacked(w: World, w': World)
    requires Sound(w) && WorkerStep(w, RemoveFinalizer, w')
    ensures Backed(w')
  {
    forall n, r | n in w'.situations && HasReceipt(w'.situations[n].status.events, r)
      ensures WasThere(w, w', n, r) && r in w'.signals && r in w.signals && Carries(w.signals[r], w'.signals[r])
    {
      assert ReceiptSound(w, n, r);
    }
    ReceiptsStay(w, w');
  }

  lemma {:induction false} WorkerStepBacked(w: World, a: Action, w': World)
    requires Sound(w) && WorkerStep(w, a, w') && Steady(w, a)
    ensures Backed(w')
  {
    match a
    case Begin(id) => BeginBacked(w, id, w');
    case Record(now) => RecordBacked(w, now, w');
    case Acknowledge => AcknowledgeBacked(w, w');
    case ClearCopy => ClearCopyBacked(w, w');
    case ClearCurrent => ClearCurrentBacked(w, w');
    case RemoveFinalizer => RemoveFinalizerBacked(w, w');
    case Crash => ReceiptsStayHere(w, w');
    case _ => PatchBacked(w, a, w');
  }

  lemma {:induction false} RunSound(tr: Trace)
    requires Run(tr) && SteadyRun(tr)
    ensures Sound(Last(tr))
  {
    if tr.Then? {
      RunSound(tr.before);
      StepSafe(Last(tr.before), tr.action, tr.world);
      if EnvironmentStep(Last(tr.before), tr.action, tr.world) {
        EnvironmentBacked(Last(tr.before), tr.action, tr.world);
      } else {
        WorkerStepBacked(Last(tr.before), tr.action, tr.world);
      }
    }
  }

  // ----- theorems -----

  /** A count of this signal in the situation its status names. */
  predicate CountedAt(e: Entry, id: string, g: Signal) {
    e.report == id && e.uid == g.situationUid
  }

  /** Exactly-once delivery: in every steady run, whatever crashes and interleavings it
      holds, an accepted signal was counted in the situation and sequence its status
      names; by `AtMostOnce` it was counted there once. */
  lemma {:induction false} ExactlyOnce(tr: Trace, id: string)
    requires Run(tr) && SteadyRun(tr) && id in Last(tr).signals && Last(tr).signals[id].phase == Accepted
    ensures
      var (g, log) := (Last(tr).signals[id], Last(tr).log);
      && Entry(id, g.situationUid, g.sequence) in log
      && forall i, j :: 0 <= i < |log| && 0 <= j < |log| && CountedAt(log[i], id, g) && CountedAt(log[j], id, g) ==> i == j
  {
    RunSound(tr);
    AtMostOnce(tr);
    var (g, log) := (Last(tr).signals[id], Last(tr).log);
    assert Named(log, id, g) && Filed(Last(tr), id);
  }

  /** No orphans: in every steady run a receipt belongs to a signal that still exists and
      cannot vanish. */
  lemma {:induction false} ReceiptsBelong(tr: Trace, n: string, r: string)
    requires Run(tr) && SteadyRun(tr) && n in Last(tr).situations && HasReceipt(Last(tr).situations[n].status.events, r)
    ensures r in Last(tr).signals && Last(tr).signals[r].ref == n && Last(tr).signals[r].finalizer
  {
    RunSound(tr);
    assert ReceiptSound(Last(tr), n, r);
  }

  // ----- the exact condition -----

  /** Every receipt stands for a report counted in the situation that holds it. */
  ghost predicate ReceiptsCounted(w: World) {
    forall n, r :: n in w.situations && HasReceipt(w.situations[n].status.events, r) ==>
      LoggedIn(w.log, r, w.situations[n].uid)
  }

  ghost predicate AlwaysCounted(tr: Trace) {
    ReceiptsCounted(Last(tr)) && (tr.Then? ==> AlwaysCounted(tr.before))
  }

  lemma {:induction false} SoundCounted(w: World)
    requires Sound(w)
    ensures ReceiptsCounted(w)
  {
    forall n, r | n in w.situations && HasReceipt(w.situations[n].status.events, r)
      ensures LoggedIn(w.log, r, w.situations[n].uid)
    {
      assert ReceiptSound(w, n, r);
    }
  }

  /** A patch that is not steady puts a receipt into a situation that never counted it. */
  lemma {:induction false} UnsteadyPastes(w: World, a: Action, w': World)
    requires Sound(w) && Step(w, a, w') && !Steady(w, a)
    ensures !ReceiptsCounted(w')
  {
    var (id, copy) := (w.worker.signal, w.worker.copy);
    var n := w.signals[id].ref;
    assert CopyKept(w, id, copy) && CopyBacked(w, id, copy);
    var r :| HasReceipt(copy.status.events, r) && r != id;
    ClearReceipts(copy.status.events, id, r);
    assert HasReceipt(w'.situations[n].status.events, r);
    assert r != "" && NoSignals(w.log, w.situations[n].uid);
  }

  /** A run keeps every receipt backed by a counted report if and only if each of its
      fast-path patches was steady. */
  lemma {:induction false} SteadyExactly(tr: Trace)
    requires Run(tr)
    ensures AlwaysCounted(tr) <==> SteadyRun(tr)
  {
    if tr.Then? {
      SteadyExactly(tr.before);
      if SteadyRun(tr.before) {
        RunSound(tr.before);
        if Steady(Last(tr.before), tr.action) {
          RunSound(tr);
          SoundCounted(Last(tr));
        } else {
          UnsteadyPastes(Last(tr.before), tr.action, tr.world);
        }
      }
    } else {
      SoundCounted(INITIAL);
    }
  }
}
