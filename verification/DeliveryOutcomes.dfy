/** How a signal is decided, in every run: rejected, postponed or counted, each exactly
    when it should be, and for good. */
module DeliveryOutcomes {
  import opened Strings
  import opened SituationBuffer
  import opened BufferTheorems
  import opened SignalDelivery
  import opened DeliverySafety

  /** The windows a situation sets, and those it has by default. */
  lemma Defaults(b: Buffer)
    ensures QuietSeconds(b) == (if b.quietSeconds > 0 then b.quietSeconds else 300)
    ensures Window(b) == (if b.dedupeSeconds > 0 then b.dedupeSeconds else 120)
    ensures HoldSeconds(b) == (if b.holdSeconds > 0 then b.holdSeconds else 900)
  {
  }

  // ----- room for a report -----

  /** The situation was never reported, or is reported again after it was resolved. */
  predicate Reopens(s: Status) {
    s.sequence <= 0 || s.phase == Resolved
  }

  /** Event `i` is the first of its key whose last report is at most the window old. */
  ghost predicate FirstWithin(events: seq<Event>, key: string, now: int, window: int, i: nat) {
    && i < |events| && events[i].id == key && (events[i].lastSeen.Some? ==> now - events[i].lastSeen.value <= window)
    && forall j :: 0 <= j < i && events[j].id == key ==> events[j].lastSeen.Some? && now - events[j].lastSeen.value > window
  }

  ghost predicate SomeWithin(events: seq<Event>, key: string, now: int, window: int) {
    exists i :: FirstWithin(events, key, now, window, i)
  }

  /** One more event would push out an event that still has a receipt. */
  ghost predicate PushesReceipt(events: seq<Event>, most: int) {
    exists i :: 0 <= i < |events| && i <= |events| - most && events[i].reports != []
  }

  /** A new report of `key` has to wait: receipts keep the old sequence open, the event it
      repeats has 64 of them, or the buffer is full and its oldest event has one. */
  ghost predicate MustWait(s: Status, key: string, now: int, b: Buffer) {
    if Reopens(s) then exists r :: HasReceipt(s.events, r)
    else if SomeWithin(s.events, key, now, Window(b)) then
      exists i: nat :: FirstWithin(s.events, key, now, Window(b), i) && |s.events[i].reports| >= 64
    else PushesReceipt(s.events, MaxEvents(b))
  }

  lemma {:induction false} FoundWithin(events: seq<Event>, key: string, now: int, window: int, i: nat)
    requires window > 0 && FirstWithin(events, key, now, window, i)
    ensures FindRepeated(events, key, now, window) == Some(i)
  {
    var at := FindRepeated(events, key, now, window);
    assert Repeats(events[i], key, now, window);
    assert forall j :: 0 <= j < i ==> !Repeats(events[j], key, now, window);
  }

  lemma {:induction false} FoundExactly(events: seq<Event>, key: string, now: int, window: int)
    requires window > 0
    ensures var at := FindRepeated(events, key, now, window);
      && (at.Some? <==> SomeWithin(events, key, now, window))
      && (at.Some? ==> FirstWithin(events, key, now, window, at.value))
  {
    var at := FindRepeated(events, key, now, window);
    if at.Some? {
      forall j | 0 <= j < at.value && events[j].id == key
        ensures events[j].lastSeen.Some? && now - events[j].lastSeen.value > window
      {
        assert !Repeats(events[j], key, now, window);
      }
      assert FirstWithin(events, key, now, window, at.value);
    } else if i :| FirstWithin(events, key, now, window, i) {
      FoundWithin(events, key, now, window, i);
    }
  }

  lemma {:induction false} ReceiptsOf(events: seq<Event>)
    ensures NoReceipts(events) <==> !exists r :: HasReceipt(events, r)
  {
    if !NoReceipts(events) {
      var i :| 0 <= i < |events| && events[i].reports != [];
      assert HasReceipt(events, events[i].reports[0]);
    }
  }

  lemma {:induction false} PushedOut(events: seq<Event>, b: Buffer)
    ensures NoReceipts(events[..Evicted(events, b)]) <==> !PushesReceipt(events, MaxEvents(b))
  {
    var n := Evicted(events, b);
    assert forall i :: 0 <= i < n ==> events[..n][i] == events[i];
  }

  /** A signal report is counted exactly if it has no receipt yet and need not wait, and
      delivered exactly if it is counted or has its receipt. */
  lemma {:induction false} DeliveredExactly(s: Status, key: string, body: string, report: string, now: int, b: Buffer)
    requires report != "" && key != ""
    ensures var d := RecordSignal(s, key, body, report, now, b);
      && (d.changed <==> !HasReceipt(s.events, report) && !MustWait(s, key, now, b))
      && (d.delivered <==> d.changed || HasReceipt(s.events, report))
  {
    ReceiptsOf(s.events);
    if !Reopens(s) {
      var at := FindRepeated(s.events, key, now, Window(b));
      FoundExactly(s.events, key, now, Window(b));
      PushedOut(s.events, b);
      forall i: nat | FirstWithin(s.events, key, now, Window(b), i) ensures at == Some(i) {
        FoundWithin(s.events, key, now, Window(b), i);
      }
    }
  }

  /** A source report is refused exactly if it reopens the situation under a receipt, or is
      new and would push one out. */
  lemma {:induction false} RefusedExactly(s: Status, key: string, body: string, now: int, b: Buffer)
    ensures RecordSource(s, key, body, now, b).None? <==>
      if Reopens(s) then exists r :: HasReceipt(s.events, r)
      else !SomeWithin(s.events, key, now, Window(b)) && PushesReceipt(s.events, MaxEvents(b))
  {
    ReceiptsOf(s.events);
    FoundExactly(s.events, key, now, Window(b));
    PushedOut(s.events, b);
  }

  /** What an accepted report leaves of the events: its own one at `i`, with its body and
      time, alone if it reopens the situation; otherwise all the others in their places,
      but for `d` pushed out at the front by a new last one. */
  ghost predicate Stored(s: Status, s': Status, key: string, body: string, now: int, i: nat, d: nat) {
    && i < |s'.events| && s'.events[i].id == key && s'.events[i].body == body && s'.events[i].lastSeen == Some(now)
    && if Reopens(s) then |s'.events| == 1
       else
         && |s'.events| == (if i + d < |s.events| then |s.events| else |s.events| - d + 1)
         && (d > 0 ==> i == |s'.events| - 1)
         && forall j :: 0 <= j < |s'.events| && j != i ==> j + d < |s.events| && s'.events[j] == s.events[j + d]
  }

  lemma {:induction false} SourceStored(s: Status, key: string, body: string, now: int, b: Buffer) returns (i: nat, d: nat)
    requires RecordSource(s, key, body, now, b).Some?
    ensures var s' := RecordSource(s, key, body, now, b).value;
      && Stored(s, s', key, body, now, i, d)
      && s'.phase == Open && s'.lastEventAt == Some(now) && s'.quietUntil == Some(now + QuietSeconds(b)) && s'.resolvedAt == None
  {
    var p := Prepare(s).value;
    var at := FindRepeated(p.events, key, now, Window(b));
    d := if at.Some? then 0 else Evicted(p.events, b);
    i := if at.Some? then at.value else |p.events| - d;
  }

  lemma {:induction false} SignalStored(
    s: Status, key: string, body: string, report: string, now: int, b: Buffer) returns (i: nat, d: nat)
    requires key != "" && RecordSignal(s, key, body, report, now, b).changed
    ensures var s' := RecordSignal(s, key, body, report, now, b).status;
      && Stored(s, s', key, body, now, i, d) && report in s'.events[i].reports
      && s'.phase == Open && s'.lastEventAt == Some(now) && s'.quietUntil == Some(now + QuietSeconds(b)) && s'.resolvedAt == None
  {
    var p := Prepare(s).value;
    var at := FindRepeated(p.events, key, now, Window(b));
    d := if at.Some? then 0 else Evicted(p.events, b);
    i := if at.Some? then at.value else |p.events| - d;
  }

  // ----- a signal that the worker has taken up -----

  /** The situation a signal names can take reports. */
  predicate Live(w: World, g: Signal) {
    g.ref in w.situations && !w.situations[g.ref].deleting
  }

  function KeyIn(s: Situation, g: Signal): string {
    s.uid + "/" + g.dedupeKey
  }

  /** The worker's next step, unless it crashes, is decided by the signal and its situation:
      an invalid signal is rejected; a valid one waits if its situation is missing, being
      deleted or has no room, and else is counted unless it has its receipt. */
  lemma {:induction false} DecidedExactly(tr: Trace, a: Action, w': World)
    requires Run(tr) && WorkerStep(Last(tr), a, w') && !a.Crash? && Last(tr).worker.Begun?
    ensures var (w, id) := (Last(tr), Last(tr).worker.signal);
      && id in w.signals
      && var g := w.signals[id];
         if !g.valid then w' == w.(signals := w.signals[id := g.(phase := Rejected, situationUid := "", sequence := 0)], worker := Idle)
         else if !Live(w, g) then
           w' == w.(signals := w.signals[id := g.(phase := Waiting, situationUid := "", sequence := 0)], worker := Idle)
         else
           && (a.Record? || a.Postpone?)
           && var s := w.situations[g.ref];
              if HasReceipt(s.status.events, id) then w' == w.(worker := Recorded(id, s))
              else if MustWait(s.status, KeyIn(s, g), a.now, s.buffer) then
                w' == w.(signals := w.signals[id := g.(phase := Waiting, situationUid := "", sequence := 0)], worker := Idle)
              else w'.signals == w.signals && |w'.log| == |w.log| + 1
  {
    RunSafe(tr);
    var (w, id) := (Last(tr), Last(tr).worker.signal);
    var g := w.signals[id];
    assert Filed(w, id);
    if g.valid && Live(w, g) {
      var s := w.situations[g.ref];
      DeliveredExactly(s.status, KeyIn(s, g), g.body, id, a.now, s.buffer);
      assert w.situations[g.ref := s] == w.situations;
    }
  }

  /** It can always take that step. */
  lemma {:induction false} DecisionPossible(tr: Trace, now: int) returns (a: Action, w': World)
    requires Run(tr) && Last(tr).worker.Begun?
    ensures !a.Crash? && WorkerStep(Last(tr), a, w')
  {
    RunSafe(tr);
    var (w, id) := (Last(tr), Last(tr).worker.signal);
    var g := w.signals[id];
    if !g.valid {
      a := Reject;
      w' := w.(signals := w.signals[id := g.(phase := Rejected, situationUid := "", sequence := 0)], worker := Idle);
    } else if CanDeliver(w, id, now) {
      a := Record(now);
      w' := Recording(w, id, now);
    } else {
      a := Postpone(now);
      w' := w.(signals := w.signals[id := g.(phase := Waiting, situationUid := "", sequence := 0)], worker := Idle);
    }
  }

  /** The recording of a new report. */
  lemma {:induction false} RecordedIn(w: World, now: int, w': World) returns (i: nat, d: nat)
    requires WorkerStep(w, Record(now), w') && w'.log != w.log
    ensures var id := w.worker.signal;
      && id in w.signals && id != "" && w.signals[id].valid && Live(w, w.signals[id])
      && var g := w.signals[id];
         var (s, s') := (w.situations[g.ref], w'.situations[g.ref]);
         && w' == w.(situations := w.situations[g.ref := s'], log := w.log + [Entry(id, s.uid, s'.status.sequence)], worker := w'.worker)
         && s' == s.(status := s'.status) && !HasReceipt(s.status.events, id)
         && Stored(s.status, s'.status, KeyIn(s, g), g.body, now, i, d) && id in s'.status.events[i].reports
  {
    var id := w.worker.signal;
    var g := w.signals[id];
    var s := w.situations[g.ref];
    SignalReport(s.status, KeyIn(s, g), g.body, id, now, s.buffer);
    i, d := SignalStored(s.status, KeyIn(s, g), g.body, id, now, s.buffer);
  }

  lemma {:induction false} OnlyRecordsCount(w: World, a: Action, w': World)
    requires Step(w, a, w') && |w'.log| > |w.log| && w'.log[|w'.log| - 1].report != ""
    ensures a.Record? && WorkerStep(w, a, w') && w'.log != w.log
  {
  }

  /** A signal is counted only while it exists, undecided and under its finalizer, with a
      valid spec, in the situation it names, which exists and is not being deleted, and
      only once. The situation then has an event with its key and body and its receipt. */
  lemma {:induction false} CountedWhere(tr: Trace, a: Action, w': World) returns (i: nat, d: nat)
    requires Run(tr) && Step(Last(tr), a, w') && |w'.log| > |Last(tr).log| && w'.log[|w'.log| - 1].report != ""
    ensures var (w, e) := (Last(tr), w'.log[|w'.log| - 1]);
      && a.Record? && w'.log == w.log + [e] && !LoggedIn(w.log, e.report, e.uid) && e.report in w.signals
      && var g := w.signals[e.report];
         && g.valid && g.finalizer && g.phase in {New, Waiting} && Live(w, g)
         && var (s, s') := (w.situations[g.ref], w'.situations[g.ref]);
            && w'.situations == w.situations[g.ref := s'] && w'.signals == w.signals && s' == s.(status := s'.status)
            && e.uid == s.uid && e.sequence == s'.status.sequence
            && Stored(s.status, s'.status, KeyIn(s, g), g.body, a.now, i, d) && e.report in s'.status.events[i].reports
  {
    RunSafe(tr);
    var w := Last(tr);
    OnlyRecordsCount(w, a, w');
    i, d := RecordedIn(w, a.now, w');
    assert Filed(w, w.worker.signal);
  }

  // ----- cleaning up -----

  lemma {:induction false} Extend(tr: Trace, a: Action, w: World) returns (longer: Trace)
    requires Run(tr) && Step(Last(tr), a, w)
    ensures Run(longer) && Last(longer) == w && Continues(longer, tr)
  {
    longer := Then(tr, a, w);
  }

  lemma {:induction false} ContinuesOn(a: Trace, b: Trace, c: Trace)
    requires Continues(a, b) && Continues(b, c)
    ensures Continues(a, c)
  {
    if a != b {
      ContinuesOn(a.before, b, c);
    }
  }

  /** The finalizer is off, and with it the signal if it was being deleted. */
  predicate Released(w: World, w': World, id: string) {
    if id in w.signals && w.signals[id].deleting then id !in w'.signals
    else id in w'.signals && !w'.signals[id].finalizer
  }

  lemma {:induction false} FinalizerComesOff(tr: Trace) returns (longer: Trace)
    requires Run(tr) && Last(tr).worker.Removing? && Last(tr).worker.signal in Last(tr).signals
    ensures Run(longer) && Continues(longer, tr) && Released(Last(tr), Last(longer), Last(tr).worker.signal)
    ensures Last(longer).worker == Idle && Last(longer).situations == Last(tr).situations
  {
    var (w, id) := (Last(tr), Last(tr).worker.signal);
    var w' := if w.signals[id].deleting
      then w.(signals := w.signals - {id}, worker := Idle)
      else w.(signals := w.signals[id := w.signals[id].(finalizer := false)], worker := Idle);
    longer := Extend(tr, RemoveFinalizer, w');
  }

  lemma {:induction false} ReceiptComesOff(tr: Trace) returns (longer: Trace)
    requires Run(tr) && Last(tr).worker.Clearing? && Last(tr).worker.signal in Last(tr).signals
    ensures Run(longer) && Continues(longer, tr) && Last(longer).worker == Removing(Last(tr).worker.signal)
    ensures Last(longer).signals == Last(tr).signals
    ensures var (w, id, uid) := (Last(longer), Last(tr).worker.signal, Last(tr).worker.uid);
      var n := w.signals[id].ref;
      n in w.situations && uid in {"", w.situations[n].uid} ==> !HasReceipt(w.situations[n].status.events, id)
  {
    var (w, id, uid) := (Last(tr), Last(tr).worker.signal, Last(tr).worker.uid);
    var n := w.signals[id].ref;
    if n in w.situations && uid in {"", w.situations[n].uid} {
      var s := w.situations[n];
      ClearReceipts(s.status.events, id, id);
      longer := Extend(tr, ClearCurrent, w.(
        situations := w.situations[n := s.(status := s.status.(events := Clear(s.status.events, id)))], worker := Removing(id)));
    } else {
      longer := Extend(tr, ClearCurrent, w.(worker := Removing(id)));
    }
  }

  /** Whatever happened before, the worker can clean up after every signal that is accepted,
      rejected or being deleted: its finalizer comes off, the object goes if it is being
      deleted, and if it was not rejected its receipt leaves the situation that counted it. */
  lemma {:induction false} CleanupPossible(tr: Trace, id: string) returns (longer: Trace)
    requires Run(tr) && Last(tr).worker == Idle && id in Last(tr).signals && Last(tr).signals[id].finalizer
    requires Decided(Last(tr).signals[id]) || Last(tr).signals[id].deleting
    ensures Run(longer) && Continues(longer, tr) && Released(Last(tr), Last(longer), id)
    ensures var (g, w) := (Last(tr).signals[id], Last(longer));
      (g.deleting || g.phase == Accepted) && g.ref in w.situations && g.situationUid in {"", w.situations[g.ref].uid} ==>
        !HasReceipt(w.situations[g.ref].status.events, id)
  {
    var (w, g) := (Last(tr), Last(tr).signals[id]);
    if g.deleting || g.phase == Accepted {
      var begun := Extend(tr, Begin(id), w.(worker := Clearing(id, g.situationUid)));
      var cleared := ReceiptComesOff(begun);
      longer := FinalizerComesOff(cleared);
      ContinuesOn(longer, cleared, begun);
      ContinuesOn(longer, begun, tr);
    } else {
      var begun := Extend(tr, Begin(id), w.(worker := Removing(id)));
      longer := FinalizerComesOff(begun);
      ContinuesOn(longer, begun, tr);
    }
  }

  // ----- decisions are final -----

  predicate Decided(g: Signal) {
    g.phase == Accepted || g.phase == Rejected
  }

  predicate SameDecision(g: Signal, g': Signal) {
    g'.phase == g.phase && g'.situationUid == g.situationUid && g'.sequence == g.sequence
  }

  lemma {:induction false} EnvironmentDecided(w: World, a: Action, w': World, id: string)
    requires EnvironmentStep(w, a, w') && id in w.signals && id in w.reports
    ensures id in w'.signals ==> SameDecision(w.signals[id], w'.signals[id])
    ensures id in w'.reports
  {
  }

  lemma {:induction false} WorkerDecided(w: World, a: Action, w': World, id: string)
    requires WorkerSafe(w) && WorkerStep(w, a, w') && id in w.signals && Decided(w.signals[id])
    ensures id in w'.signals ==> SameDecision(w.signals[id], w'.signals[id])
    ensures w'.reports == w.reports
  {
  }

  lemma {:induction false} StepDecided(w: World, a: Action, w': World, id: string)
    requires Safe(w) && Step(w, a, w') && id in w.signals && Decided(w.signals[id])
    ensures id in w'.signals ==> SameDecision(w.signals[id], w'.signals[id])
    ensures id in w'.reports
  {
    assert Filed(w, id);
    if EnvironmentStep(w, a, w') {
      EnvironmentDecided(w, a, w', id);
    } else {
      WorkerDecided(w, a, w', id);
    }
  }

  lemma {:induction false} StepGone(w: World, a: Action, w': World, id: string)
    requires Step(w, a, w') && id !in w.signals && id in w.reports
    ensures id !in w'.signals && id in w'.reports
  {
  }

  ghost predicate Continues(tr: Trace, earlier: Trace) {
    tr == earlier || (tr.Then? && Continues(tr.before, earlier))
  }

  /** Over any stretch of any run an accepted or rejected signal keeps its decision and
      what its status says, for as long as it exists. */
  lemma {:induction false} DecisionFinal(tr: Trace, earlier: Trace, id: string)
    requires Run(tr) && Continues(tr, earlier) && id in Last(earlier).signals && Decided(Last(earlier).signals[id])
    ensures id in Last(tr).signals ==> SameDecision(Last(earlier).signals[id], Last(tr).signals[id])
    ensures id !in Last(tr).signals ==> id in Last(tr).reports
  {
    if tr != earlier {
      DecisionFinal(tr.before, earlier, id);
      RunSafe(tr.before);
      if id in Last(tr.before).signals {
        StepDecided(Last(tr.before), tr.action, tr.world, id);
      } else {
        StepGone(Last(tr.before), tr.action, tr.world, id);
      }
    }
  }
}
