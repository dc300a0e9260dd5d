/** The books of a situation: every report counted is found on a buffered event or
    on one that was evicted, for any mix of source and signal reports. */
module BufferLedger {
  import opened Strings
  import opened SituationBuffer

  function Sum(events: seq<Event>): int {
    if events == [] then 0 else Sum(events[..|events| - 1]) + events[|events| - 1].count
  }

  lemma {:induction false} SumConcat(a: seq<Event>, b: seq<Event>)
    ensures Sum(a + b) == Sum(a) + Sum(b)
  {
    if b == [] {
      assert a + b == a;
    } else {
      var n := |b| - 1;
      assert (a + b)[..|a + b| - 1] == a + b[..n];
      SumConcat(a, b[..n]);
    }
  }

  lemma {:induction false} SumUpdate(events: seq<Event>, at: nat, e: Event)
    requires at < |events|
    ensures Sum(events[at := e]) == Sum(events) - events[at].count + e.count
  {
    var n := |events| - 1;
    if at < n {
      assert events[at := e][..n] == events[..n][at := e];
      SumUpdate(events[..n], at, e);
    } else {
      assert events[at := e][..n] == events[..n];
    }
  }

  lemma {:induction false} SumClear(events: seq<Event>, report: string)
    ensures Sum(Clear(events, report)) == Sum(events)
  {
    if events != [] {
      var n := |events| - 1;
      assert Clear(events, report)[..n] == Clear(events[..n], report);
      SumClear(events[..n], report);
    }
  }

  /** A status with the events evicted from its current sequence. */
  datatype Books = Books(status: Status, evictedCount: int, evictedEvents: int)

  datatype Change =
    | Source(id: string, body: string, now: int, buffer: Buffer)
    | Signal(id: string, body: string, report: string, now: int, buffer: Buffer)
    | Acknowledge(report: string)
    | Settle(phase: Phase)

  ghost predicate Conserved(b: Books) {
    && b.status.eventCount == Sum(b.status.events) + b.evictedCount
    && b.status.eventCount - b.status.duplicateCount == |b.status.events| + b.evictedEvents
  }

  /** The events a new report of `id` pushes out of a prepared status. */
  function PushedOut(p: Status, id: string, now: int, buffer: Buffer): seq<Event> {
    if FindRepeated(p.events, id, now, Window(buffer)).Some? then [] else p.events[..Evicted(p.events, buffer)]
  }

  /** The books after a report that changed the status to `status`. */
  ghost function Posted(b: Books, id: string, now: int, buffer: Buffer, status: Status): Books
    requires Prepare(b.status).Some?
  {
    var p := Prepare(b.status).value;
    var out := PushedOut(p, id, now, buffer);
    if p.sequence == b.status.sequence then Books(status, b.evictedCount + Sum(out), b.evictedEvents + |out|)
    else Books(status, Sum(out), |out|)
  }

  ghost function Next(b: Books, c: Change): Books {
    match c
    case Source(id, body, now, buffer) =>
      var r := RecordSource(b.status, id, body, now, buffer);
      if r.None? then b else Posted(b, id, now, buffer, r.value)
    case Signal(id, body, report, now, buffer) =>
      var d := RecordSignal(b.status, id, body, report, now, buffer);
      if !d.changed then b else Posted(b, id, now, buffer, d.status)
    case Acknowledge(report) => b.(status := b.status.(events := Clear(b.status.events, report)))
    case Settle(phase) => b.(status := b.status.(phase := phase))
  }

  /** One report on a prepared status keeps the books. */
  lemma PostConserved(b: Books, id: string, reports: seq<string>, name: string, body: string, now: int, buffer: Buffer)
    requires Conserved(b)
    ensures
      var events := b.status.events;
      var at := FindRepeated(events, id, now, Window(buffer));
      && (at.Some? ==>
            Conserved(b.(status := Reported(
              b.status, events[at.value := Repeated(events[at.value], reports, body, now)], true, now, buffer))))
      && (at.None? && Append(b.status, name, reports, body, now, buffer).Some? ==>
            Conserved(Books(
              Append(b.status, name, reports, body, now, buffer).value,
              b.evictedCount + Sum(events[..Evicted(events, buffer)]), b.evictedEvents + Evicted(events, buffer))))
  {
    var events := b.status.events;
    var at := FindRepeated(events, id, now, Window(buffer));
    if at.Some? {
      SumUpdate(events, at.value, Repeated(events[at.value], reports, body, now));
    } else {
      var n := Evicted(events, buffer);
      var e := Event(name, reports, body, Some(now), Some(now), 1);
      SumConcat(events[..n], events[n..]);
      assert events == events[..n] + events[n..];
      SumConcat(events[n..], [e]);
      assert Sum([e]) == 1;
    }
  }

  /** The books a prepared status starts with. */
  ghost function Opened(b: Books): Books
    requires Prepare(b.status).Some?
  {
    var p := Prepare(b.status).value;
    if p.sequence == b.status.sequence then b.(status := p) else Books(p, 0, 0)
  }

  lemma OpenConserved(b: Books)
    requires Conserved(b) && Prepare(b.status).Some?
    ensures Conserved(Opened(b))
  {
  }

  lemma SourceConserved(b: Books, id: string, body: string, now: int, buffer: Buffer)
    requires Conserved(b)
    ensures Conserved(Next(b, Source(id, body, now, buffer)))
  {
    if RecordSource(b.status, id, body, now, buffer).Some? {
      OpenConserved(b);
      PostConserved(Opened(b), id, [], id, body, now, buffer);
    }
  }

  lemma SignalConserved(b: Books, id: string, body: string, report: string, now: int, buffer: Buffer)
    requires Conserved(b)
    ensures Conserved(Next(b, Signal(id, body, report, now, buffer)))
  {
    if RecordSignal(b.status, id, body, report, now, buffer).changed {
      OpenConserved(b);
      PostConserved(Opened(b), id, [report], if id == "" then report else id, body, now, buffer);
    }
  }

  lemma NextConserved(b: Books, c: Change)
    requires Conserved(b)
    ensures Conserved(Next(b, c))
  {
    match c
    case Source(id, body, now, buffer) => SourceConserved(b, id, body, now, buffer);
    case Signal(id, body, report, now, buffer) => SignalConserved(b, id, body, report, now, buffer);
    case Acknowledge(report) => SumClear(b.status.events, report);
    case Settle(_) =>
  }

  /** The books after a history of changes. */
  ghost function After(b: Books, changes: seq<Change>): Books {
    if changes == [] then b
    else Next(After(b, changes[..|changes| - 1]), changes[|changes| - 1])
  }

  lemma {:induction false} AfterConserved(b: Books, changes: seq<Change>)
    requires Conserved(b)
    ensures Conserved(After(b, changes))
  {
    if changes != [] {
      AfterConserved(b, changes[..|changes| - 1]);
      NextConserved(After(b, changes[..|changes| - 1]), changes[|changes| - 1]);
    }
  }

  /** Counter conservation: after any history of reports, acknowledgements and phase
      changes, the event counter of the current sequence equals the counts on the
      buffered events plus those evicted, and the reports that were not duplicates
      are the events buffered plus those evicted. */
  lemma {:induction false} CountersConserved(changes: seq<Change>)
    ensures Conserved(After(Books(EMPTY_STATUS, 0, 0), changes))
  {
    AfterConserved(Books(EMPTY_STATUS, 0, 0), changes);
  }

  // ----- the stale acknowledgement -----

  /** The fast-path acknowledgement writes back the event list of an earlier copy. */
  function StaleAcknowledge(current: Books, copy: Status, report: string): Books {
    current.(status := current.status.(events := Clear(copy.events, report)))
  }

  /** Whatever happened since the copy was taken, writing it back keeps the books
      exactly when the buffer by now holds as many events and as many counts as the
      copy does. */
  lemma {:induction false} StaleAcknowledgeBalance(copy: Books, changes: seq<Change>, report: string)
    requires Conserved(copy)
    ensures
      var current := After(copy, changes);
      Conserved(StaleAcknowledge(current, copy.status, report)) <==>
        |current.status.events| == |copy.status.events| && Sum(current.status.events) == Sum(copy.status.events)
  {
    AfterConserved(copy, changes);
    SumClear(copy.status.events, report);
  }

  /** A change that stays in the sequence and pushes nothing out. */
  ghost predicate Retains(b: Books, c: Change) {
    var b' := Next(b, c);
    b'.status.sequence == b.status.sequence && b'.evictedCount == b.evictedCount && b'.evictedEvents == b.evictedEvents
  }

  ghost predicate NothingEvicted(b: Books, changes: seq<Change>) {
    changes != [] ==>
      NothingEvicted(b, changes[..|changes| - 1]) && Retains(After(b, changes[..|changes| - 1]), changes[|changes| - 1])
  }

  lemma RetainsCounts(b: Books, c: Change)
    requires Retains(b, c)
    ensures
      var (s, s') := (b.status, Next(b, c).status);
      0 <= s'.duplicateCount - s.duplicateCount <= s'.eventCount - s.eventCount
  {
  }

  lemma {:induction false} NothingEvictedCounts(b: Books, changes: seq<Change>)
    requires NothingEvicted(b, changes)
    ensures
      var b' := After(b, changes);
      && b'.evictedCount == b.evictedCount && b'.evictedEvents == b.evictedEvents
      && 0 <= b'.status.duplicateCount - b.status.duplicateCount <= b'.status.eventCount - b.status.eventCount
  {
    if changes != [] {
      NothingEvictedCounts(b, changes[..|changes| - 1]);
      RetainsCounts(After(b, changes[..|changes| - 1]), changes[|changes| - 1]);
    }
  }

  /** While nothing is evicted, that is so exactly when no report was counted since:
      both counters on the books are lost with the first one. */
  lemma {:induction false} StaleAcknowledgeSum(copy: Books, changes: seq<Change>, report: string)
    requires Conserved(copy) && NothingEvicted(copy, changes)
    ensures
      var current := After(copy, changes);
      Conserved(StaleAcknowledge(current, copy.status, report)) <==>
        current.status.eventCount == copy.status.eventCount
  {
    NothingEvictedCounts(copy, changes);
    SumClear(copy.status.events, report);
  }

  /** In particular a single report that arrives between the copy and the
      acknowledgement is lost from the buffer as long as there is room. */
  lemma {:induction false} StaleAcknowledgeLoses(copy: Books, id: string, body: string, now: int, buffer: Buffer, report: string)
    requires Conserved(copy) && copy.status.sequence > 0 && copy.status.phase == Open
    requires FindRepeated(copy.status.events, id, now, Window(buffer)).None?
    requires |copy.status.events| < MaxEvents(buffer)
    ensures
      var current := Next(copy, Source(id, body, now, buffer));
      && Conserved(current)
      && !Conserved(StaleAcknowledge(current, copy.status, report))
      && Conserved(Next(current, Acknowledge(report)))
  {
    var c := Source(id, body, now, buffer);
    NextConserved(copy, c);
    NextConserved(Next(copy, c), Acknowledge(report));
    assert copy.status.events[..0] == [];
    assert RecordSource(copy.status, id, body, now, buffer).Some?;
    assert [c][..0] == [] && After(copy, [c]) == Next(copy, c);
    StaleAcknowledgeBalance(copy, [c], report);
  }

  /** A full buffer hides the loss: a report that pushes out an event counted once
      leaves the books balanced, though the event is gone and the old one is back. */
  lemma {:induction false} StaleAcknowledgeHides(copy: Books, id: string, body: string, now: int, buffer: Buffer, report: string)
    requires Conserved(copy) && copy.status.sequence > 0 && copy.status.phase == Open
    requires FindRepeated(copy.status.events, id, now, Window(buffer)).None?
    requires |copy.status.events| == MaxEvents(buffer) && copy.status.events[0].count == 1 && copy.status.events[0].reports == []
    ensures
      var current := Next(copy, Source(id, body, now, buffer));
      && current.status.eventCount == copy.status.eventCount + 1
      && Conserved(StaleAcknowledge(current, copy.status, report))
  {
    var c := Source(id, body, now, buffer);
    var events := copy.status.events;
    var e := Event(id, [], body, Some(now), Some(now), 1);
    assert Next(copy, c).status.events == events[1..] + [e];
    SumConcat(events[..1], events[1..]);
    SumConcat(events[1..], [e]);
    assert events == events[..1] + events[1..];
    assert Sum(events[..1]) == 1 && Sum([e]) == 1;
    assert [c][..0] == [] && After(copy, [c]) == Next(copy, c);
    StaleAcknowledgeBalance(copy, [c], report);
  }
}
