/** The status of an adverse situation, updated in place by the recording
    functions; each is proved to compute its counterpart in `SituationBuffer`. */
module SituationStatus {
  import opened Strings
  import opened SituationBuffer

  class SituationStatus {
    var phase: Phase
    var sequence: int
    var events: seq<Event>
    var eventCount: int
    var duplicateCount: int
    var lastEventAt: Option<int>
    var quietUntil: Option<int>
    var resolvedAt: Option<int>
    var responder: Option<Responder>
    var pullRequest: string
    var holdObservedAt: Option<int>
    var holdUntil: Option<int>

    ghost function View(): Status
      reads this
    {
      Status(phase, sequence, events, eventCount, duplicateCount, lastEventAt, quietUntil, resolvedAt,
             responder, pullRequest, holdObservedAt, holdUntil)
    }

    constructor ()
      ensures View() == EMPTY_STATUS
    {
      phase, sequence, events, eventCount, duplicateCount := Unset, 0, [], 0, 0;
      lastEventAt, quietUntil, resolvedAt, responder := None, None, None, None;
      pullRequest, holdObservedAt, holdUntil := "", None, None;
    }

    /** The scan for an outstanding receipt among the first `n` events. */
    method AnyReceipt(n: nat) returns (found: bool)
      requires n <= |events|
      ensures found <==> !NoReceipts(events[..n])
    {
      for i := 0 to n
        invariant NoReceipts(events[..i])
      {
        if |events[i].reports| > 0 {
          assert events[..n][i] == events[i];
          return true;
        }
      }
      return false;
    }

    method PrepareSequence() returns (ok: bool)
      modifies this
      ensures ok <==> Prepare(old(View())).Some?
      ensures View() == if ok then Prepare(old(View())).value else old(View())
    {
      if sequence > 0 && phase != Resolved {
        return true;
      }
      var outstanding := AnyReceipt(|events|);
      assert events[..|events|] == events;
      if outstanding {
        return false;
      }
      sequence := sequence + 1;
      if sequence <= 0 {
        sequence := 1;
      }
      events, eventCount, duplicateCount := [], 0, 0;
      responder, pullRequest := None, "";
      holdObservedAt, holdUntil, resolvedAt := None, None, None;
      return true;
    }

    method AppendEvent(id: string, reports: seq<string>, body: string, now: int, b: Buffer) returns (ok: bool)
      modifies this
      ensures ok <==> Append(old(View()), id, reports, body, now, b).Some?
      ensures View() == if ok then Append(old(View()), id, reports, body, now, b).value else old(View())
    {
      var max := MaxEvents(b);
      var evict := |events| + 1 - max;
      var n := if evict > 0 then evict else 0;
      var outstanding := AnyReceipt(n);
      if outstanding {
        return false;
      }
      ghost var before := events;
      events := events + [Event(id, reports, body, Some(now), Some(now), 1)];
      if |events| > max {
        events := events[|events| - max..];
      }
      assert events == before[n..] + [Event(id, reports, body, Some(now), Some(now), 1)];
      eventCount := eventCount + 1;
      lastEventAt, quietUntil := Some(now), Some(now + QuietSeconds(b));
      phase, resolvedAt := Open, None;
      return true;
    }

    /** The scan for the event a report repeats. */
    method Find(id: string, now: int, window: int) returns (at: Option<nat>)
      ensures at == FindRepeated(events, id, now, window)
    {
      for i := 0 to |events|
        invariant forall j :: 0 <= j < i ==> !Repeats(events[j], id, now, window)
      {
        if events[i].id == id {
          if events[i].lastSeen.Some? && window > 0 && now - events[i].lastSeen.value > window {
            continue;
          }
          return Some(i);
        }
      }
      return None;
    }

    /** Counts a report of an event already buffered. */
    method Repeat(at: nat, reports: seq<string>, body: string, now: int, b: Buffer)
      requires at < |events|
      modifies this
      ensures View() == Reported(
        old(View()), old(events)[at := Repeated(old(events)[at], reports, body, now)], true, now, b)
    {
      var e := events[at];
      events := events[at := Event(e.id, e.reports + reports, body, e.firstSeen, Some(now), e.count + 1)];
      eventCount, duplicateCount := eventCount + 1, duplicateCount + 1;
      lastEventAt, quietUntil := Some(now), Some(now + QuietSeconds(b));
      phase, resolvedAt := Open, None;
    }

    method RecordEvent(id: string, body: string, now: int, b: Buffer) returns (ok: bool)
      modifies this
      ensures ok <==> RecordSource(old(View()), id, body, now, b).Some?
      ensures View() == if ok then RecordSource(old(View()), id, body, now, b).value else old(View())
    {
      ghost var before := View();
      ok := PrepareSequence();
      if !ok {
        return;
      }
      PrepareKeepsRoom(before, b);
      var at := Find(id, now, Window(b));
      if at.Some? {
        Repeat(at.value, [], body, now, b);
      } else {
        ok := AppendEvent(id, [], body, now, b);
      }
    }

    /** The scan for a receipt already recorded. */
    method Recorded(report: string) returns (found: bool)
      ensures found <==> HasReceipt(events, report)
    {
      for i := 0 to |events|
        invariant forall j :: 0 <= j < i ==> report !in events[j].reports
      {
        for k := 0 to |events[i].reports|
          invariant report !in events[i].reports[..k]
        {
          if events[i].reports[k] == report {
            return true;
          }
        }
      }
      return false;
    }

    method RecordSignalEvent(id: string, body: string, report: string, now: int, b: Buffer)
      returns (changed: bool, delivered: bool)
      modifies this
      ensures Delivery(changed, delivered, View()) == RecordSignal(old(View()), id, body, report, now, b)
    {
      if report == "" {
        return false, false;
      }
      var known := Recorded(report);
      if known {
        return false, true;
      }
      ghost var before := View();
      var ready := PrepareSequence();
      if !ready {
        return false, false;
      }
      PrepareKeepsRoom(before, b);
      var at := Find(id, now, Window(b));
      if at.Some? {
        if |events[at.value].reports| >= MAX_REPORTS_PER_EVENT {
          return false, false;
        }
        Repeat(at.value, [report], body, now, b);
        return true, true;
      }
      var appended := AppendEvent(if id == "" then report else id, [report], body, now, b);
      if !appended {
        return false, false;
      }
      return true, true;
    }

    /** Filters one receipt out of every event. */
    method ClearReceipt(report: string) returns (changed: bool)
      modifies this
      ensures View() == old(View()).(events := Clear(old(events), report))
      ensures changed <==> HasReceipt(old(events), report)
    {
      changed := false;
      var out: seq<Event> := [];
      for i := 0 to |events|
        invariant unchanged(this) && |out| == i
        invariant forall j :: 0 <= j < i ==> out[j] == events[j].(reports := Without(events[j].reports, report))
        invariant changed <==> exists j :: 0 <= j < i && report in events[j].reports
      {
        var kept, dropped := Filter(events[i].reports, report);
        if dropped {
          changed := true;
        }
        out := out + [events[i].(reports := kept)];
      }
      assert out == Clear(events, report);
      events := out;
    }
  }

  method Filter(reports: seq<string>, report: string) returns (kept: seq<string>, dropped: bool)
    ensures kept == Without(reports, report)
    ensures dropped <==> report in reports
  {
    kept, dropped := [], false;
    assert reports[0..] == reports;
    for i := 0 to |reports|
      invariant Without(reports, report) == kept + Without(reports[i..], report)
      invariant dropped <==> report in reports[..i]
    {
      assert reports[i..][1..] == reports[i + 1..];
      if reports[i] == report {
        dropped := true;
      } else {
        kept := kept + [reports[i]];
      }
    }
  }

  /** A prepared status is the given one, or has an empty buffer and so room for an event. */
  lemma PrepareKeepsRoom(s: Status, b: Buffer)
    requires Prepare(s).Some?
    ensures Prepare(s).value == s || (Prepare(s).value.events == [] && Evicted([], b) == 0)
  {
  }
}
