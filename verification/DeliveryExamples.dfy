/** Two runs in which the fast path clears a receipt with a stale list. In one a source
    report disappears from the buffer. In the other the situation is re-created under its
    name first, and another signal is accepted by the new one without being counted. */
module DeliveryExamples {
  import opened Strings
  import opened SituationBuffer
  import opened BufferTheorems
  import opened SignalDelivery
  import opened DeliverySafety

  /** A situation name, the uids of the two objects that bear it, and two signals. */
  datatype Cast = Cast(name: string, before: string, after: string, first: string, second: string)

  predicate Proper(x: Cast) {
    x.before != "" && x.after != "" && x.before != x.after && x.first != "" && x.second != "" && x.first != x.second
  }

  const BUFFER := Buffer(0, 0, 0, 0)

  /** Both signals look like this when they are created. */
  function Report(x: Cast): Signal {
    Signal(x.name, "", "", true, false, false, New, "", 0)
  }

  /** The event they report. */
  function Shared(x: Cast, reports: seq<string>): Event {
    Event(EventId(x.before, Report(x)), reports, "", Some(0), Some(0), |reports|)
  }

  function Once(x: Cast): Status {
    Status(Open, 1, [Shared(x, [x.first])], 1, 0, Some(0), Some(300), None, None, "", None, None)
  }

  function Twice(x: Cast): Status {
    Once(x).(events := [Shared(x, [x.first, x.second])], eventCount := 2, duplicateCount := 1)
  }

  function Object(uid: string, status: Status): Situation {
    Situation(uid, false, BUFFER, status)
  }

  // ----- the two recordings -----

  lemma FirstRecorded(x: Cast)
    requires Proper(x)
    ensures RecordSignal(EMPTY_STATUS, EventId(x.before, Report(x)), "", x.first, 0, BUFFER) == Delivery(true, true, Once(x))
  {
    assert EMPTY_STATUS.events[..0] == [];
    assert [] + [Shared(x, [x.first])] == [Shared(x, [x.first])];
    assert EventId(x.before, Report(x))[0] == x.before[0];
  }

  lemma SecondRecorded(x: Cast)
    requires Proper(x)
    ensures RecordSignal(Once(x), EventId(x.before, Report(x)), "", x.second, 0, BUFFER) == Delivery(true, true, Twice(x))
  {
    assert Repeats(Once(x).events[0], EventId(x.before, Report(x)), 0, 120);
    assert [x.first] + [x.second] == [x.first, x.second];
    assert !HasReceipt(Once(x).events, x.second);
  }

  lemma Pasted(x: Cast)
    requires Proper(x)
    ensures HasReceipt(Twice(x).events, x.first) && HasReceipt(Twice(x).events, x.second)
    ensures HasReceipt(Clear(Twice(x).events, x.second), x.first)
  {
    assert x.first in Twice(x).events[0].reports && x.second in Twice(x).events[0].reports;
    ClearReceipts(Twice(x).events, x.second, x.first);
  }

  // ----- steps -----

  /** One step more. */
  lemma {:induction false} Extend(tr: Trace, a: Action, w: World) returns (longer: Trace)
    requires Run(tr) && Step(Last(tr), a, w)
    ensures Run(longer) && Last(longer) == w && (SteadyRun(longer) <==> SteadyRun(tr) && Steady(Last(tr), a))
  {
    longer := Then(tr, a, w);
  }

  /** The worker takes one step more and stops. */
  lemma {:induction false} StepThenCrash(tr: Trace, a: Action, w: World) returns (longer: Trace)
    requires Run(tr) && WorkerStep(Last(tr), a, w)
    ensures Run(longer) && Last(longer) == w.(worker := Idle) && (SteadyRun(longer) <==> SteadyRun(tr) && Steady(Last(tr), a))
  {
    longer := Extend(tr, a, w);
    longer := Extend(longer, Crash, w.(worker := Idle));
  }

  /** A signal gets its finalizer and is taken up again. */
  lemma {:induction false} TakenUp(tr: Trace, id: string) returns (longer: Trace)
    requires Run(tr) && Last(tr).worker == Idle && id in Last(tr).signals
    requires Last(tr).signals[id].phase == New && !Last(tr).signals[id].deleting && !Last(tr).signals[id].finalizer
    ensures Run(longer) && (SteadyRun(longer) <==> SteadyRun(tr))
    ensures Last(longer) == Last(tr).(
      signals := Last(tr).signals[id := Last(tr).signals[id].(finalizer := true)], worker := Begun(id))
  {
    var w := Last(tr);
    longer := Extend(tr, Begin(id), w.(worker := Adding(id)));
    longer := Extend(longer, AddFinalizer, w.(signals := w.signals[id := w.signals[id].(finalizer := true)], worker := Idle));
    longer := Extend(longer, Begin(id), Last(longer).(worker := Begun(id)));
  }

  /** A delivered report is recorded. */
  lemma {:induction false} RecordedRun(tr: Trace, id: string, d: Delivery) returns (longer: Trace)
    requires Run(tr) && Last(tr).worker == Begun(id) && id in Last(tr).signals && Last(tr).signals[id].valid
    requires Last(tr).signals[id].ref in Last(tr).situations && !Last(tr).situations[Last(tr).signals[id].ref].deleting
    requires Attempt(Last(tr), id, 0) == d && d.delivered
    ensures Run(longer) && (SteadyRun(longer) <==> SteadyRun(tr))
    ensures
      var w := Last(tr);
      var n := w.signals[id].ref;
      var s := w.situations[n].(status := d.status);
      Last(longer) == w.(
        situations := w.situations[n := s], worker := Recorded(id, s),
        log := if d.changed then w.log + [Entry(id, s.uid, d.status.sequence)] else w.log)
  {
    longer := Extend(tr, Record(0), Recording(Last(tr), id, 0));
  }

  /** The worker's signal is accepted where its copy says. */
  lemma {:induction false} AcknowledgedRun(tr: Trace) returns (longer: Trace)
    requires Run(tr) && Last(tr).worker.Recorded? && Last(tr).worker.signal in Last(tr).signals
    ensures Run(longer) && (SteadyRun(longer) <==> SteadyRun(tr))
    ensures
      var w := Last(tr);
      var (id, copy) := (w.worker.signal, w.worker.copy);
      Last(longer) == w.(
        signals := w.signals[id := w.signals[id].(phase := Accepted, situationUid := copy.uid, sequence := copy.status.sequence)],
        worker := Acknowledged(id, copy))
  {
    var w := Last(tr);
    var (id, copy) := (w.worker.signal, w.worker.copy);
    longer := Extend(tr, Acknowledge, w.(
      signals := w.signals[id := w.signals[id].(phase := Accepted, situationUid := copy.uid, sequence := copy.status.sequence)],
      worker := Acknowledged(id, copy)));
  }

  /** Both signals point at the situation `s`. */
  predicate Staged(x: Cast, w: World, s: Situation) {
    && x.name in w.situations && w.situations[x.name] == s
    && x.first in w.signals && x.second in w.signals && w.signals[x.second].ref == x.name
  }

  /** A situation and two signals for it. */
  lemma {:induction false} CreatedRun(x: Cast) returns (tr: Trace)
    requires Proper(x)
    ensures Run(tr) && SteadyRun(tr) && Last(tr).worker == Idle && Staged(x, Last(tr), Object(x.before, EMPTY_STATUS))
    ensures Last(tr).signals[x.first] == Report(x) && Last(tr).signals[x.second] == Report(x)
    ensures Last(tr).log == [] && Last(tr).uids == {x.before}
  {
    var w := INITIAL.(situations := map[x.name := Object(x.before, EMPTY_STATUS)], uids := {x.before});
    assert INITIAL.situations[x.name := Object(x.before, EMPTY_STATUS)] == w.situations;
    tr := Extend(Start, CreateSituation(x.name, x.before, BUFFER), w);
    tr := Extend(tr, CreateSignal(x.first, Report(x)),
      w.(signals := w.signals[x.first := Report(x)], reports := w.reports + {x.first}));
    w := Last(tr);
    tr := Extend(tr, CreateSignal(x.second, Report(x)),
      w.(signals := w.signals[x.second := Report(x)], reports := w.reports + {x.second}));
  }

  /** The first signal is taken up. */
  lemma {:induction false} BegunRun(x: Cast) returns (tr: Trace)
    requires Proper(x)
    ensures Run(tr) && SteadyRun(tr) && Last(tr).worker == Begun(x.first) && Staged(x, Last(tr), Object(x.before, EMPTY_STATUS))
    ensures Last(tr).signals[x.first] == Report(x).(finalizer := true) && Last(tr).signals[x.second] == Report(x)
    ensures Last(tr).log == [] && Last(tr).uids == {x.before}
  {
    tr := CreatedRun(x);
    tr := TakenUp(tr, x.first);
  }

  // ----- a source report is lost -----

  /** A source reports another event while the worker holds its copy. */
  function Joined(x: Cast, event: string): Status {
    Once(x).(events := Once(x).events + [Event(event, [], "", Some(0), Some(0), 1)], eventCount := 2)
  }

  lemma SourceRecorded(x: Cast, event: string)
    requires Proper(x) && event != EventId(x.before, Report(x))
    ensures RecordSource(Once(x), event, "", 0, BUFFER) == Some(Joined(x, event))
  {
    assert Once(x).events[0..] == Once(x).events;
  }

  /** The first signal is counted, then the source's event. */
  lemma {:induction false} JoinedRun(x: Cast, event: string) returns (tr: Trace)
    requires Proper(x) && event != EventId(x.before, Report(x))
    ensures Run(tr) && SteadyRun(tr) && Staged(x, Last(tr), Object(x.before, Joined(x, event)))
    ensures Last(tr).worker == Recorded(x.first, Object(x.before, Once(x))) && Last(tr).signals[x.first].ref == x.name
    ensures Last(tr).log == [Entry(x.first, x.before, 1), Entry("", x.before, 1)]
  {
    tr := BegunRun(x);
    FirstRecorded(x);
    tr := RecordedRun(tr, x.first, Delivery(true, true, Once(x)));
    SourceRecorded(x, event);
    var w := Last(tr);
    tr := Extend(tr, ReportSource(x.name, event, "", 0), w.(
      situations := w.situations[x.name := Object(x.before, Joined(x, event))],
      log := w.log + [Entry("", x.before, 1)]));
  }

  /** Whatever the names, a run exists, and a steady one, in which the clearing of an
      acknowledged receipt takes a source's report out of the buffer: both reports are
      counted and one event is left. */
  lemma {:induction false} SourceReportLost(x: Cast, event: string) returns (before: Trace, tr: Trace)
    requires Proper(x) && event != EventId(x.before, Report(x))
    ensures Run(tr) && SteadyRun(tr) && tr.Then? && tr.before == before && tr.action == ClearCopy
    ensures x.name in Last(before).situations && exists e :: e in Last(before).situations[x.name].status.events && e.id == event
    ensures x.name in Last(tr).situations && Last(tr).situations[x.name].status.eventCount == |Last(tr).log| == 2
    ensures forall e :: e in Last(tr).situations[x.name].status.events ==> e.id != event
  {
    tr := JoinedRun(x, event);
    before := AcknowledgedRun(tr);
    var s := Last(before).situations[x.name];
    assert s.status.events[1].id == event && s.status.events[1] in s.status.events;
    var w := ClearedCopy(Last(before), x.first, Object(x.before, Once(x)));
    assert x.first in Once(x).events[0].reports;
    tr := Then(before, ClearCopy, w);
  }

  // ----- an uncounted signal is accepted -----

  lemma FirstStep(x: Cast, w: World) returns (w': World)
    requires Proper(x) && w.worker == Begun(x.first) && Staged(x, w, Object(x.before, EMPTY_STATUS))
    requires w.signals[x.first] == Report(x).(finalizer := true)
    ensures WorkerStep(w, Record(0), w')
    ensures w' == w.(
      situations := w.situations[x.name := Object(x.before, Once(x))], worker := w'.worker,
      log := w.log + [Entry(x.first, x.before, 1)])
  {
    FirstRecorded(x);
    w' := Recording(w, x.first, 0);
  }

  /** The first signal is counted; the worker stops before acknowledging it. */
  lemma {:induction false} CountedRun(x: Cast) returns (tr: Trace)
    requires Proper(x)
    ensures Run(tr) && Last(tr).worker == Idle && Staged(x, Last(tr), Object(x.before, Once(x)))
    ensures Last(tr).signals[x.first] == Report(x).(finalizer := true) && Last(tr).signals[x.second] == Report(x)
    ensures Last(tr).log == [Entry(x.first, x.before, 1)] && Last(tr).uids == {x.before}
  {
    tr := BegunRun(x);
    var w := FirstStep(x, Last(tr));
    tr := StepThenCrash(tr, Record(0), w);
  }

  /** The second is counted and accepted; its receipt and the first one are in the copy. */
  lemma {:induction false} AcceptedRun(x: Cast) returns (tr: Trace)
    requires Proper(x)
    ensures Run(tr) && Staged(x, Last(tr), Object(x.before, Twice(x)))
    ensures Last(tr).worker == Acknowledged(x.second, Object(x.before, Twice(x)))
    ensures Last(tr).signals[x.first] == Report(x).(finalizer := true)
    ensures Last(tr).log == [Entry(x.first, x.before, 1), Entry(x.second, x.before, 1)] && Last(tr).uids == {x.before}
  {
    tr := CountedRun(x);
    tr := TakenUp(tr, x.second);
    SecondRecorded(x);
    tr := RecordedRun(tr, x.second, Delivery(true, true, Twice(x)));
    tr := AcknowledgedRun(tr);
  }

  /** Meanwhile the situation is removed and created again under its name. */
  lemma {:induction false} RecreatedRun(x: Cast) returns (tr: Trace)
    requires Proper(x)
    ensures Run(tr) && Staged(x, Last(tr), Object(x.after, EMPTY_STATUS))
    ensures Last(tr).worker == Acknowledged(x.second, Object(x.before, Twice(x)))
    ensures Last(tr).signals[x.first] == Report(x).(finalizer := true)
    ensures Last(tr).log == [Entry(x.first, x.before, 1), Entry(x.second, x.before, 1)]
  {
    tr := AcceptedRun(x);
    var w := Last(tr);
    tr := Extend(tr, RemoveSituation(x.name), w.(situations := w.situations - {x.name}));
    w := Last(tr);
    tr := Extend(tr, CreateSituation(x.name, x.after, BUFFER),
      w.(situations := w.situations[x.name := Object(x.after, EMPTY_STATUS)], uids := w.uids + {x.after}));
  }

  lemma PasteStep(x: Cast, w: World) returns (w': World)
    requires Proper(x) && Staged(x, w, Object(x.after, EMPTY_STATUS))
    requires w.worker == Acknowledged(x.second, Object(x.before, Twice(x)))
    ensures WorkerStep(w, ClearCopy, w') && !Steady(w, ClearCopy)
    ensures
      var s := Object(x.after, EMPTY_STATUS.(events := Clear(Twice(x).events, x.second)));
      w' == w.(situations := w.situations[x.name := s], worker := w'.worker)
  {
    Pasted(x);
    assert !OnlyReceipt(Twice(x).events, x.second);
    w' := ClearedCopy(w, x.second, Object(x.before, Twice(x)));
  }

  /** The patch lands on the new object and leaves the first signal's receipt there. */
  lemma {:induction false} PastedRun(x: Cast) returns (tr: Trace)
    requires Proper(x)
    ensures Run(tr) && !SteadyRun(tr) && Last(tr).worker == Idle
    ensures Staged(x, Last(tr), Object(x.after, EMPTY_STATUS.(events := Clear(Twice(x).events, x.second))))
    ensures Last(tr).signals[x.first] == Report(x).(finalizer := true)
    ensures Last(tr).log == [Entry(x.first, x.before, 1), Entry(x.second, x.before, 1)]
  {
    tr := RecreatedRun(x);
    var w := PasteStep(x, Last(tr));
    tr := StepThenCrash(tr, ClearCopy, w);
  }

  /** Whatever the names, a run exists in which the first signal finds its receipt in the
      new situation and is accepted as counted there, though the new situation never
      counted it. */
  lemma {:induction false} RecreatedAcceptsUncounted(x: Cast) returns (tr: Trace)
    requires Proper(x)
    ensures Run(tr) && !SteadyRun(tr) && x.first in Last(tr).signals
    ensures Last(tr).signals[x.first].phase == Accepted && Last(tr).signals[x.first].situationUid == x.after
    ensures !LoggedIn(Last(tr).log, x.first, x.after)
  {
    tr := PastedRun(x);
    Pasted(x);
    tr := Extend(tr, Begin(x.first), Last(tr).(worker := Begun(x.first)));
    tr := RecordedRun(tr, x.first, Delivery(false, true, Last(tr).situations[x.name].status));
    tr := AcknowledgedRun(tr);
  }
}
