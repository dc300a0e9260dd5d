/** Deduplication refines a simple specification: the buffered events of one
    grouping key are the stretches of its reports, split where two consecutive
    reports lie further apart than the window. */
module Deduplication {
  import opened Strings
  import opened SituationBuffer

  // ----- the specification -----

  /** Puts an earlier report before the parts of the reports that follow it. */
  function Attach(t: int, next: int, rest: seq<seq<int>>, window: int): seq<seq<int>>
    requires rest != []
  {
    if next - t > window then [[t]] + rest else [[t] + rest[0]] + rest[1..]
  }

  /** The reports of one key, cut at every gap larger than the window. */
  function Split(times: seq<int>, window: int): (r: seq<seq<int>>)
    ensures times != [] ==> r != [] && r[0] != [] && r[0][0] == times[0]
    ensures times == [] ==> r == []
  {
    if times == [] then []
    else if |times| == 1 then [times]
    else Attach(times[0], times[1], Split(times[1..], window), window)
  }

  function Join(parts: seq<seq<int>>): seq<int> {
    if parts == [] then [] else parts[0] + Join(parts[1..])
  }

  /** The parts are the reports again, in order. */
  lemma {:induction false} SplitJoins(times: seq<int>, window: int)
    ensures Join(Split(times, window)) == times
  {
    if |times| == 1 {
      assert Join([times]) == times + Join([times][1..]);
    } else if |times| > 1 {
      SplitJoins(times[1..], window);
      var rest := Split(times[1..], window);
      if times[1] - times[0] > window {
        assert ([[times[0]]] + rest)[1..] == rest;
      } else {
        assert ([[times[0]] + rest[0]] + rest[1..])[1..] == rest[1..];
        assert Join(rest) == rest[0] + Join(rest[1..]);
      }
    }
  }

  ghost predicate Close(part: seq<int>, window: int) {
    part != [] && forall i :: 0 < i < |part| ==> part[i] - part[i - 1] <= window
  }

  ghost predicate AllClose(parts: seq<seq<int>>, window: int) {
    forall k :: 0 <= k < |parts| ==> Close(parts[k], window)
  }

  ghost predicate Far(a: seq<int>, b: seq<int>, window: int) {
    a != [] && b != [] && b[0] - a[|a| - 1] > window
  }

  ghost predicate AllFar(parts: seq<seq<int>>, window: int) {
    forall k :: 0 < k < |parts| ==> Far(parts[k - 1], parts[k], window)
  }

  lemma AttachClose(t: int, next: int, rest: seq<seq<int>>, window: int)
    requires rest != [] && rest[0] != [] && rest[0][0] == next && AllClose(rest, window)
    ensures AllClose(Attach(t, next, rest, window), window)
  {
  }

  lemma AttachFar(t: int, next: int, rest: seq<seq<int>>, window: int)
    requires rest != [] && rest[0] != [] && rest[0][0] == next && AllFar(rest, window)
    ensures AllFar(Attach(t, next, rest, window), window)
  {
  }

  /** Within a part no gap exceeds the window, between parts every gap does. */
  lemma {:induction false} SplitGaps(times: seq<int>, window: int)
    ensures AllClose(Split(times, window), window) && AllFar(Split(times, window), window)
  {
    if |times| > 1 {
      SplitGaps(times[1..], window);
      AttachClose(times[0], times[1], Split(times[1..], window), window);
      AttachFar(times[0], times[1], Split(times[1..], window), window);
    }
  }

  /** A later report starts a new part or extends the last one. */
  function More(parts: seq<seq<int>>, t: int, far: bool): seq<seq<int>>
    requires parts != []
  {
    var n := |parts| - 1;
    if far then parts + [[t]] else parts[..n] + [parts[n] + [t]]
  }

  lemma AttachMore(t0: int, t1: int, rest: seq<seq<int>>, t: int, far: bool, window: int)
    requires rest != []
    ensures Attach(t0, t1, More(rest, t, far), window) == More(Attach(t0, t1, rest, window), t, far)
  {
    var n := |rest| - 1;
    var l, r := Attach(t0, t1, More(rest, t, far), window), More(Attach(t0, t1, rest, window), t, far);
    if t1 - t0 <= window && !far && n == 0 {
      assert [t0] + (rest[0] + [t]) == ([t0] + rest[0]) + [t];
    }
    assert |l| == |r| && forall k :: 0 <= k < |l| ==> l[k] == r[k];
  }

  lemma SplitTwo(t0: int, t: int, window: int)
    ensures Split([t0, t], window) == More([[t0]], t, t - t0 > window)
  {
  }

  /** Another report splits off or extends the last part. */
  lemma {:induction false} SplitMore(times: seq<int>, t: int, window: int)
    requires times != []
    ensures Split(times + [t], window) == More(Split(times, window), t, t - times[|times| - 1] > window)
  {
    if |times| == 1 {
      assert times + [t] == [times[0], t] && times == [times[0]];
      SplitTwo(times[0], t, window);
    } else {
      var rest, far := Split(times[1..], window), t - times[|times| - 1] > window;
      SplitMore(times[1..], t, window);
      assert (times + [t])[1..] == times[1..] + [t];
      assert Split(times + [t], window) == Attach(times[0], times[1], More(rest, t, far), window);
      AttachMore(times[0], times[1], rest, t, far, window);
    }
  }

  // ----- what the buffer shows -----

  /** First report, last report and number of reports of one stretch. */
  datatype Segment = Segment(first: int, last: int, count: int)

  function Summary(part: seq<int>): Segment
    requires part != []
  {
    Segment(part[0], part[|part| - 1], |part|)
  }

  ghost predicate Matches(segments: seq<Segment>, parts: seq<seq<int>>) {
    && |segments| == |parts|
    && forall k :: 0 <= k < |parts| ==> parts[k] != [] && segments[k] == Summary(parts[k])
  }

  ghost predicate Timed(events: seq<Event>) {
    forall i :: 0 <= i < |events| ==> events[i].firstSeen.Some? && events[i].lastSeen.Some?
  }

  function ToSegment(e: Event): Segment
    requires e.firstSeen.Some? && e.lastSeen.Some?
  {
    Segment(e.firstSeen.value, e.lastSeen.value, e.count)
  }

  /** The buffered events of one key, oldest first. */
  function Shown(events: seq<Event>, id: string): seq<Segment>
    requires Timed(events)
  {
    if events == [] then []
    else
      var n := |events| - 1;
      assert Timed(events[..n]);
      Shown(events[..n], id) + (if events[n].id == id then [ToSegment(events[n])] else [])
  }

  lemma {:induction false} ShownConcat(a: seq<Event>, b: seq<Event>, id: string)
    requires Timed(a) && Timed(b)
    ensures Timed(a + b) && Shown(a + b, id) == Shown(a, id) + Shown(b, id)
  {
    if b == [] {
      assert a + b == a;
    } else {
      var n := |b| - 1;
      assert (a + b)[..|a + b| - 1] == a + b[..n];
      ShownConcat(a, b[..n], id);
    }
  }

  lemma {:induction false} ShownNone(events: seq<Event>, id: string)
    requires Timed(events) && forall i :: 0 <= i < |events| ==> events[i].id != id
    ensures Shown(events, id) == []
  {
    if events != [] {
      ShownNone(events[..|events| - 1], id);
    }
  }

  lemma ShownAt(events: seq<Event>, at: nat, id: string)
    requires Timed(events) && at < |events|
    ensures Timed(events[..at]) && Timed(events[at + 1..])
    ensures Shown(events, id) ==
      Shown(events[..at], id) + (if events[at].id == id then [ToSegment(events[at])] else []) + Shown(events[at + 1..], id)
  {
    var here := [events[at]];
    assert events == (events[..at] + here) + events[at + 1..];
    ShownConcat(events[..at], here, id);
    ShownConcat(events[..at] + here, events[at + 1..], id);
    assert here[..0] == [];
    assert Shown(here, id) == Shown(here[..0], id) + (if events[at].id == id then [ToSegment(events[at])] else []);
  }

  /** Every stretch but the last has gone stale by the time of the last report. */
  ghost predicate Stale(segments: seq<Segment>, last: int, window: int) {
    forall k :: 0 <= k < |segments| - 1 ==> last - segments[k].last > window
  }

  /** A report repeats the newest event of its key or none. */
  lemma OnlyNewestRepeats(events: seq<Event>, at: nat, id: string, now: int, window: int)
    requires Timed(events) && window > 0 && at < |events| && Repeats(events[at], id, now, window)
    requires Stale(Shown(events, id), now, window)
    ensures Timed(events[at + 1..]) && Shown(events[at + 1..], id) == []
  {
    ShownAt(events, at, id);
    var k := |Shown(events[..at], id)|;
    assert k < |Shown(events, id)| && Shown(events, id)[k] == ToSegment(events[at]);
  }

  /** If no event is repeated, the newest one of the key is too old. */
  lemma {:induction false} NewestStale(events: seq<Event>, id: string, now: int, window: int)
    requires Timed(events) && window > 0 && Shown(events, id) != []
    requires forall i :: 0 <= i < |events| ==> !Repeats(events[i], id, now, window)
    ensures
      var segments := Shown(events, id);
      now - segments[|segments| - 1].last > window
  {
    var n := |events| - 1;
    if events[n].id != id {
      NewestStale(events[..n], id, now, window);
    }
  }

  // ----- the refinement -----

  /** One report: from a watched source when `receipt` is empty, else from a signal. */
  datatype Report = Report(id: string, receipt: string, now: int)

  ghost function Take(s: Status, r: Report, b: Buffer): Option<Status> {
    if r.receipt == "" then RecordSource(s, r.id, "", r.now, b)
    else
      var d := RecordSignal(s, r.id, "", r.receipt, r.now, b);
      if d.changed then Some(d.status) else None
  }

  /** A history of one situation under a fixed buffer spec: reports that were taken,
      acknowledgements of receipts, and phase changes. */
  datatype History =
    | Opened
    | Took(before: History, report: Report, status: Status)
    | Acknowledged(before: History, receipt: string, status: Status)
    | Settled(before: History, phase: Phase, status: Status)

  function Current(h: History): Status {
    if h.Opened? then EMPTY_STATUS else h.status
  }

  /** A report that pushes nothing out: it repeats a buffered event or there is room. */
  ghost predicate Fits(events: seq<Event>, r: Report, b: Buffer) {
    FindRepeated(events, r.id, r.now, Window(b)).Some? || Evicted(events, b) == 0
  }

  /** The reports come in time order, none was refused, nothing was evicted, and the
      situation was not resolved. */
  ghost predicate Orderly(h: History, b: Buffer) {
    match h
    case Opened => true
    case Took(before, r, status) =>
      && Orderly(before, b) && r.id != "" && NotAfter(before, r.now)
      && Fits(Current(before).events, r, b) && Take(Current(before), r, b) == Some(status)
    case Acknowledged(before, receipt, status) =>
      Orderly(before, b) && status == Current(before).(events := Clear(Current(before).events, receipt))
    case Settled(before, phase, status) =>
      Orderly(before, b) && phase != Resolved && status == Current(before).(phase := phase)
  }

  /** No report was made after `now`. */
  ghost predicate NotAfter(h: History, now: int) {
    match h
    case Opened => true
    case Took(_, r, _) => r.now <= now
    case Acknowledged(before, _, _) => NotAfter(before, now)
    case Settled(before, _, _) => NotAfter(before, now)
  }

  /** When the reports of one key were made. */
  function Times(h: History, id: string): seq<int> {
    match h
    case Opened => []
    case Took(before, r, _) => Times(before, id) + (if r.id == id then [r.now] else [])
    case Acknowledged(before, _, _) => Times(before, id)
    case Settled(before, _, _) => Times(before, id)
  }

  /** What taking a report does to the events. */
  ghost predicate EventsAfter(events: seq<Event>, r: Report, b: Buffer, events': seq<Event>) {
    var at := FindRepeated(events, r.id, r.now, Window(b));
    var receipts := if r.receipt == "" then [] else [r.receipt];
    if at.Some? then events' == events[at.value := Repeated(events[at.value], receipts, "", r.now)]
    else events' == events + [Event(r.id, receipts, "", Some(r.now), Some(r.now), 1)]
  }

  /** A situation that has been reported and not resolved keeps its sequence. */
  ghost predicate Going(s: Status) {
    s.phase != Resolved && (s.sequence > 0 || s.events == [])
  }

  lemma TakeEvents(s: Status, r: Report, b: Buffer)
    requires Going(s) && r.id != "" && Fits(s.events, r, b) && Take(s, r, b).Some?
    ensures EventsAfter(s.events, r, b, Take(s, r, b).value.events) && Going(Take(s, r, b).value)
  {
  }

  lemma {:induction false} ClearShown(events: seq<Event>, receipt: string, id: string)
    requires Timed(events)
    ensures Timed(Clear(events, receipt)) && Shown(Clear(events, receipt), id) == Shown(events, id)
  {
    if events != [] {
      var n := |events| - 1;
      assert Clear(events, receipt)[..n] == Clear(events[..n], receipt);
      ClearShown(events[..n], receipt, id);
    }
  }

  /** The events of a key show its split reports; all but the newest are stale. */
  ghost predicate Refined(events: seq<Event>, times: seq<int>, id: string, window: int) {
    && Timed(events)
    && Matches(Shown(events, id), Split(times, window))
    && (times != [] ==>
          var segments := Shown(events, id);
          && segments[|segments| - 1].last == times[|times| - 1]
          && Stale(segments, times[|times| - 1], window))
  }

  /** A report of another key shows nothing new. */
  lemma OtherKey(events: seq<Event>, r: Report, b: Buffer, events': seq<Event>, id: string)
    requires Timed(events) && EventsAfter(events, r, b, events') && r.id != id
    ensures Timed(events') && Shown(events', id) == Shown(events, id)
  {
    var at := FindRepeated(events, r.id, r.now, Window(b));
    if at.Some? {
      ShownAt(events, at.value, id);
      ShownAt(events', at.value, id);
      assert events'[..at.value] == events[..at.value] && events'[at.value + 1..] == events[at.value + 1..];
    } else {
      assert events'[..|events|] == events;
    }
  }

  /** A repeated report extends the newest event of its key. */
  lemma ShownRepeat(events: seq<Event>, r: Report, b: Buffer, events': seq<Event>)
    requires Timed(events) && EventsAfter(events, r, b, events')
    requires FindRepeated(events, r.id, r.now, Window(b)).Some?
    requires Stale(Shown(events, r.id), r.now, Window(b))
    ensures
      var segments := Shown(events, r.id);
      var n := |segments| - 1;
      && segments != [] && r.now - segments[n].last <= Window(b)
      && Timed(events')
      && Shown(events', r.id) == segments[..n] + [Segment(segments[n].first, r.now, segments[n].count + 1)]
  {
    var at := FindRepeated(events, r.id, r.now, Window(b)).value;
    OnlyNewestRepeats(events, at, r.id, r.now, Window(b));
    ShownAt(events, at, r.id);
    assert Timed(events');
    ShownAt(events', at, r.id);
    assert events'[..at] == events[..at] && events'[at + 1..] == events[at + 1..];
    var segments := Shown(events, r.id);
    assert segments == Shown(events[..at], r.id) + [ToSegment(events[at])];
    assert segments[..|segments| - 1] == Shown(events[..at], r.id);
  }

  /** A new report of a key is shown after the older ones. */
  lemma ShownNew(events: seq<Event>, r: Report, b: Buffer, events': seq<Event>)
    requires Timed(events) && EventsAfter(events, r, b, events')
    requires FindRepeated(events, r.id, r.now, Window(b)).None?
    ensures Timed(events') && Shown(events', r.id) == Shown(events, r.id) + [Segment(r.now, r.now, 1)]
    ensures
      var segments := Shown(events, r.id);
      segments != [] ==> r.now - segments[|segments| - 1].last > Window(b)
  {
    assert events'[..|events|] == events;
    if Shown(events, r.id) != [] {
      NewestStale(events, r.id, r.now, Window(b));
    }
  }

  lemma MatchesExtend(segments: seq<Segment>, parts: seq<seq<int>>, t: int)
    requires parts != [] && Matches(segments, parts)
    ensures
      var n := |segments| - 1;
      && Matches(segments[..n] + [Segment(segments[n].first, t, segments[n].count + 1)], More(parts, t, false))
      && Matches(segments + [Segment(t, t, 1)], More(parts, t, true))
  {
  }

  lemma SameKey(events: seq<Event>, times: seq<int>, r: Report, b: Buffer, events': seq<Event>)
    requires Refined(events, times, r.id, Window(b)) && EventsAfter(events, r, b, events')
    requires times != [] ==> times[|times| - 1] <= r.now
    ensures Refined(events', times + [r.now], r.id, Window(b))
  {
    var segments := Shown(events, r.id);
    if times == [] {
      assert FindRepeated(events, r.id, r.now, Window(b)).None? by {
        var at := FindRepeated(events, r.id, r.now, Window(b));
        if at.Some? { ShownAt(events, at.value, r.id); }
      }
      ShownNew(events, r, b, events');
      assert times + [r.now] == [r.now];
      assert Summary([r.now]) == Segment(r.now, r.now, 1);
    } else {
      SplitMore(times, r.now, Window(b));
      MatchesExtend(segments, Split(times, Window(b)), r.now);
      if FindRepeated(events, r.id, r.now, Window(b)).Some? {
        ShownRepeat(events, r, b, events');
      } else {
        ShownNew(events, r, b, events');
      }
    }
  }

  lemma {:induction false} TimesBounded(h: History, b: Buffer, id: string, now: int)
    requires Orderly(h, b) && NotAfter(h, now) && Times(h, id) != []
    ensures Times(h, id)[|Times(h, id)| - 1] <= now
  {
    if h.Took? {
      if h.report.id != id { TimesBounded(h.before, b, id, h.report.now); }
    } else {
      TimesBounded(h.before, b, id, now);
    }
  }

  lemma {:induction false} OrderlyGoing(h: History, b: Buffer)
    requires Orderly(h, b)
    ensures Going(Current(h))
  {
    match h
    case Opened =>
    case Took(before, r, _) =>
      OrderlyGoing(before, b);
      TakeEvents(Current(before), r, b);
    case Acknowledged(before, _, _) => OrderlyGoing(before, b);
    case Settled(before, _, _) => OrderlyGoing(before, b);
  }

  lemma {:induction false} TookRefined(h: History, b: Buffer, id: string)
    requires Orderly(h, b) && h.Took? && Refined(Current(h.before).events, Times(h.before, id), id, Window(b))
    ensures Refined(Current(h).events, Times(h, id), id, Window(b))
  {
    var (before, r) := (h.before, h.report);
    OrderlyGoing(before, b);
    TakeEvents(Current(before), r, b);
    if r.id == id {
      if Times(before, id) != [] { TimesBounded(before, b, id, r.now); }
      SameKey(Current(before).events, Times(before, id), r, b, h.status.events);
    } else {
      OtherKey(Current(before).events, r, b, h.status.events, id);
      assert Times(h, id) == Times(before, id);
    }
  }

  lemma {:induction false} HistoryRefined(h: History, b: Buffer, id: string)
    requires Orderly(h, b)
    ensures Refined(Current(h).events, Times(h, id), id, Window(b))
  {
    match h
    case Opened =>
    case Took(before, _, _) =>
      HistoryRefined(before, b, id);
      TookRefined(h, b, id);
    case Acknowledged(before, receipt, _) =>
      HistoryRefined(before, b, id);
      ClearShown(Current(before).events, receipt, id);
    case Settled(before, _, _) => HistoryRefined(before, b, id);
  }

  /** Deduplication refines splitting: while nothing is evicted or resolved, the
      events buffered for a key are exactly the stretches of its reports, with
      first report, last report and count. */
  lemma {:induction false} DedupeRefines(h: History, b: Buffer, id: string)
    requires Orderly(h, b)
    ensures Timed(Current(h).events)
    ensures Matches(Shown(Current(h).events, id), Split(Times(h, id), Window(b)))
  {
    HistoryRefined(h, b, id);
  }
}
