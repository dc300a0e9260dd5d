/** What one report does to the receipts, counters and bounds of the buffer. */
module BufferTheorems {
  import opened Strings
  import opened SituationBuffer

  ghost predicate SameReceipts(a: seq<Event>, b: seq<Event>) {
    forall r :: HasReceipt(a, r) <==> HasReceipt(b, r)
  }

  // ----- receipts -----

  lemma ClearReceipts(events: seq<Event>, report: string, r: string)
    ensures HasReceipt(Clear(events, report), r) <==> HasReceipt(events, r) && r != report
  {
  }

  lemma UpdateReceipts(events: seq<Event>, at: nat, e: Event, added: seq<string>, r: string)
    requires at < |events| && e.reports == events[at].reports + added
    ensures HasReceipt(events[at := e], r) <==> HasReceipt(events, r) || r in added
  {
    var events' := events[at := e];
    if HasReceipt(events, r) {
      var i :| 0 <= i < |events| && r in events[i].reports;
      assert r in events'[i].reports;
    }
    if r in added {
      assert r in events'[at].reports;
    }
  }

  lemma AppendReceipts(events: seq<Event>, n: nat, e: Event, r: string)
    requires n <= |events| && NoReceipts(events[..n])
    ensures HasReceipt(events[n..] + [e], r) <==> HasReceipt(events, r) || r in e.reports
  {
    var events' := events[n..] + [e];
    if HasReceipt(events, r) {
      var i :| 0 <= i < |events| && r in events[i].reports;
      assert forall j :: 0 <= j < n ==> events[j].reports == events[..n][j].reports;
      assert r in events'[i - n].reports;
    }
    if r in e.reports {
      assert events'[|events| - n] == e;
    }
    if HasReceipt(events', r) && r !in e.reports {
      var i :| 0 <= i < |events'| && r in events'[i].reports;
      assert r in events[i + n].reports;
    }
  }

  lemma PrepareReceipts(s: Status)
    requires Prepare(s).Some?
    ensures SameReceipts(s.events, Prepare(s).value.events)
    ensures (exists r :: HasReceipt(s.events, r)) ==> Prepare(s).value == s
  {
  }

  /** What an effective report does to a status, apart from its events: the same
      sequence counts one more, or a later sequence counts one. */
  ghost predicate CountsOne(s: Status, s': Status) {
    || (s'.sequence == s.sequence > 0 && s'.eventCount == s.eventCount + 1)
    || (s'.sequence > s.sequence && s'.sequence >= 1 && s'.eventCount == 1 && forall r :: !HasReceipt(s.events, r))
  }

  /** A source report adds and loses no receipt. */
  lemma {:induction false} SourceReport(s: Status, id: string, body: string, now: int, b: Buffer)
    requires RecordSource(s, id, body, now, b).Some?
    ensures
      var s' := RecordSource(s, id, body, now, b).value;
      SameReceipts(s.events, s'.events) && CountsOne(s, s')
  {
    PrepareReceipts(s);
    var p := Prepare(s).value;
    var s' := RecordSource(s, id, body, now, b).value;
    var at := FindRepeated(p.events, id, now, Window(b));
    forall r ensures HasReceipt(p.events, r) <==> HasReceipt(s'.events, r) {
      if at.Some? {
        UpdateReceipts(p.events, at.value, Repeated(p.events[at.value], [], body, now), [], r);
      } else {
        AppendReceipts(p.events, Evicted(p.events, b), Event(id, [], body, Some(now), Some(now), 1), r);
      }
    }
  }

  /** A signal report that changes the status adds exactly its own receipt; one that
      does not leaves the status alone; a delivered one has its receipt either way. */
  lemma {:induction false} SignalReport(s: Status, id: string, body: string, report: string, now: int, b: Buffer)
    ensures
      var d := RecordSignal(s, id, body, report, now, b);
      && (!d.changed ==> d.status == s)
      && (d.changed ==> d.delivered && report != "" && !HasReceipt(s.events, report) && CountsOne(s, d.status))
      && (d.delivered ==> forall r :: HasReceipt(d.status.events, r) <==> HasReceipt(s.events, r) || r == report)
  {
    var d := RecordSignal(s, id, body, report, now, b);
    if d.changed {
      PrepareReceipts(s);
      var p := Prepare(s).value;
      var at := FindRepeated(p.events, id, now, Window(b));
      forall r ensures HasReceipt(d.status.events, r) <==> HasReceipt(p.events, r) || r == report {
        if at.Some? {
          UpdateReceipts(p.events, at.value, Repeated(p.events[at.value], [report], body, now), [report], r);
        } else {
          var e := Event(if id == "" then report else id, [report], body, Some(now), Some(now), 1);
          AppendReceipts(p.events, Evicted(p.events, b), e, r);
        }
      }
    }
  }

  /** Back-pressure comes from outstanding receipts only. */
  lemma DeliversWithoutReceipts(s: Status, id: string, body: string, report: string, now: int, b: Buffer)
    requires report != "" && NoReceipts(s.events)
    ensures RecordSignal(s, id, body, report, now, b).delivered
    ensures RecordSignal(s, id, body, report, now, b).changed
    ensures RecordSource(s, id, body, now, b).Some?
  {
  }

  // ----- bounds -----

  /** At most 200 events, at most 64 receipts on each, and no receipt twice. */
  ghost predicate Bounded(events: seq<Event>) {
    && |events| <= HARD_MAX_EVENTS
    && (forall i :: 0 <= i < |events| ==> |events[i].reports| <= MAX_REPORTS_PER_EVENT)
    && (forall i :: 0 <= i < |events| ==> Distinct(events[i].reports))
    && (forall i, j, r :: 0 <= i < j < |events| && r in events[i].reports ==> r !in events[j].reports)
  }

  ghost predicate Distinct(reports: seq<string>) {
    forall i, j :: 0 <= i < j < |reports| ==> reports[i] != reports[j]
  }

  lemma {:induction false} WithoutDistinct(reports: seq<string>, report: string)
    requires Distinct(reports)
    ensures Distinct(Without(reports, report))
  {
    if reports != [] {
      WithoutDistinct(reports[1..], report);
      assert reports == [reports[0]] + reports[1..];
      assert reports[0] !in reports[1..];
    }
  }

  lemma ClearBounded(events: seq<Event>, report: string)
    requires Bounded(events)
    ensures Bounded(Clear(events, report))
  {
    forall i | 0 <= i < |events| ensures Distinct(Without(events[i].reports, report)) {
      WithoutDistinct(events[i].reports, report);
    }
  }

  lemma SourceBounded(s: Status, id: string, body: string, now: int, b: Buffer)
    requires Bounded(s.events) && RecordSource(s, id, body, now, b).Some?
    ensures Bounded(RecordSource(s, id, body, now, b).value.events)
  {
  }

  lemma RepeatBounded(events: seq<Event>, at: nat, e: Event, report: string)
    requires Bounded(events) && at < |events| && |events[at].reports| < MAX_REPORTS_PER_EVENT
    requires !HasReceipt(events, report) && e.reports == events[at].reports + [report]
    ensures Bounded(events[at := e])
  {
  }

  lemma RoomBounded(events: seq<Event>, n: nat, e: Event, report: string, b: Buffer)
    requires Bounded(events) && n == Evicted(events, b)
    requires !HasReceipt(events, report) && e.reports == [report]
    ensures Bounded(events[n..] + [e])
  {
  }

  lemma {:induction false} SignalBounded(s: Status, id: string, body: string, report: string, now: int, b: Buffer)
    requires Bounded(s.events)
    ensures Bounded(RecordSignal(s, id, body, report, now, b).status.events)
  {
    var d := RecordSignal(s, id, body, report, now, b);
    if d.changed {
      PrepareReceipts(s);
      var p := Prepare(s).value;
      assert Bounded(p.events);
      var at := FindRepeated(p.events, id, now, Window(b));
      if at.Some? {
        RepeatBounded(p.events, at.value, Repeated(p.events[at.value], [report], body, now), report);
      } else {
        var e := Event(if id == "" then report else id, [report], body, Some(now), Some(now), 1);
        RoomBounded(p.events, Evicted(p.events, b), e, report, b);
      }
    }
  }
}
