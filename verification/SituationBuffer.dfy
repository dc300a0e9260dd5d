/** The event buffer of an adverse situation: time-window deduplication, receipts
    for signal reports, a bounded ring that never evicts a receipt, and sequence
    numbers that advance when a resolved situation is reported again. */
module SituationBuffer {
  import opened Strings

  const DEFAULT_QUIET_SECONDS := 300
  const DEFAULT_DEDUPE_SECONDS := 120
  const DEFAULT_HOLD_SECONDS := 900
  const DEFAULT_MAX_EVENTS := 80
  const HARD_MAX_EVENTS := 200
  const MAX_REPORTS_PER_EVENT := 64

  datatype Phase = Unset | Pending | Open | Quieting | Resolved

  /** `reports` are the receipts of signal reports not yet acknowledged. Times are
      seconds; None is a missing timestamp. */
  datatype Event = Event(
    id: string, reports: seq<string>, body: string,
    firstSeen: Option<int>, lastSeen: Option<int>, count: int)

  /** The zero value of a numeric field selects the default. */
  datatype Buffer = Buffer(quietSeconds: int, dedupeSeconds: int, holdSeconds: int, maxEvents: int)

  /** The name of a responder run: derived from the sequence, or any other. */
  datatype RunName = ForSequence(sequence: int) | Named(text: string)

  /** The recorded responder. A blank uid or digest marks a record made before
      receipts were kept. */
  datatype Responder = Responder(name: RunName, uid: string, digest: string)

  datatype Status = Status(
    phase: Phase, sequence: int, events: seq<Event>, eventCount: int, duplicateCount: int,
    lastEventAt: Option<int>, quietUntil: Option<int>, resolvedAt: Option<int>,
    responder: Option<Responder>, pullRequest: string,
    holdObservedAt: Option<int>, holdUntil: Option<int>)

  const EMPTY_STATUS := Status(Unset, 0, [], 0, 0, None, None, None, None, "", None, None)

  function QuietSeconds(b: Buffer): (r: int)
    ensures r > 0
  {
    if b.quietSeconds > 0 then b.quietSeconds else DEFAULT_QUIET_SECONDS
  }

  function Window(b: Buffer): (r: int)
    ensures r > 0
  {
    if b.dedupeSeconds > 0 then b.dedupeSeconds else DEFAULT_DEDUPE_SECONDS
  }

  function HoldSeconds(b: Buffer): (r: int)
    ensures r > 0
  {
    if b.holdSeconds > 0 then b.holdSeconds else DEFAULT_HOLD_SECONDS
  }

  function MaxEvents(b: Buffer): (r: nat)
    ensures 1 <= r <= HARD_MAX_EVENTS
    ensures b.maxEvents <= 0 ==> r == DEFAULT_MAX_EVENTS
    ensures b.maxEvents > 0 ==> r <= b.maxEvents && (r == b.maxEvents || r == HARD_MAX_EVENTS)
  {
    if b.maxEvents > 0 then (if b.maxEvents < HARD_MAX_EVENTS then b.maxEvents else HARD_MAX_EVENTS)
    else DEFAULT_MAX_EVENTS
  }

  // ----- receipts -----

  ghost predicate HasReceipt(events: seq<Event>, report: string) {
    exists i :: 0 <= i < |events| && report in events[i].reports
  }

  ghost predicate NoReceipts(events: seq<Event>) {
    forall i :: 0 <= i < |events| ==> events[i].reports == []
  }

  function Without(reports: seq<string>, report: string): (r: seq<string>)
    ensures forall x :: x in r <==> x in reports && x != report
    ensures |r| <= |reports|
  {
    if reports == [] then []
    else
      var rest := Without(reports[1..], report);
      assert reports == [reports[0]] + reports[1..];
      if reports[0] == report then rest else [reports[0]] + rest
  }

  /** Drops one receipt from every event. */
  function Clear(events: seq<Event>, report: string): (r: seq<Event>)
    ensures |r| == |events|
    ensures forall i :: 0 <= i < |events| ==> r[i] == events[i].(reports := Without(events[i].reports, report))
  {
    seq(|events|, i requires 0 <= i < |events| => events[i].(reports := Without(events[i].reports, report)))
  }

  // ----- recording -----

  /** The next sequence of a new or resolved situation, unless a receipt is outstanding. */
  ghost function Prepare(s: Status): Option<Status> {
    if s.sequence > 0 && s.phase != Resolved then Some(s)
    else if !NoReceipts(s.events) then None
    else Some(s.(
      sequence := if s.sequence + 1 <= 0 then 1 else s.sequence + 1,
      events := [], eventCount := 0, duplicateCount := 0,
      responder := None, pullRequest := "", holdObservedAt := None, holdUntil := None, resolvedAt := None))
  }

  /** An event that a report of `id` at time `now` repeats. */
  predicate Repeats(e: Event, id: string, now: int, window: int) {
    e.id == id && !(e.lastSeen.Some? && window > 0 && now - e.lastSeen.value > window)
  }

  function FindRepeated(events: seq<Event>, id: string, now: int, window: int): (r: Option<nat>)
    ensures r.Some? ==> r.value < |events| && Repeats(events[r.value], id, now, window)
    ensures r.Some? ==> forall j :: 0 <= j < r.value ==> !Repeats(events[j], id, now, window)
    ensures r.None? ==> forall j :: 0 <= j < |events| ==> !Repeats(events[j], id, now, window)
  {
    if events == [] then None
    else if Repeats(events[0], id, now, window) then Some(0)
    else
      var r := FindRepeated(events[1..], id, now, window);
      if r.None? then
        assert forall j :: 1 <= j < |events| ==> events[j] == events[1..][j - 1];
        None
      else
        assert forall j :: 1 <= j <= r.value + 1 ==> events[j] == events[1..][j - 1];
        Some(r.value + 1)
  }

  /** The status every accepted report leaves behind, apart from the events. */
  function Reported(s: Status, events: seq<Event>, duplicate: bool, now: int, b: Buffer): Status {
    s.(
      events := events, eventCount := s.eventCount + 1,
      duplicateCount := s.duplicateCount + (if duplicate then 1 else 0),
      lastEventAt := Some(now), quietUntil := Some(now + QuietSeconds(b)), phase := Open, resolvedAt := None)
  }

  function Repeated(e: Event, reports: seq<string>, body: string, now: int): Event {
    e.(reports := e.reports + reports, body := body, count := e.count + 1, lastSeen := Some(now))
  }

  /** How many of the oldest events have to go to make room for one more. */
  function Evicted(events: seq<Event>, b: Buffer): (n: nat)
    ensures n <= |events| && |events| - n + 1 <= MaxEvents(b)
  {
    if |events| + 1 > MaxEvents(b) then |events| + 1 - MaxEvents(b) else 0
  }

  ghost function Append(s: Status, id: string, reports: seq<string>, body: string, now: int, b: Buffer): Option<Status> {
    var n := Evicted(s.events, b);
    if !NoReceipts(s.events[..n]) then None
    else
      var e := Event(id, reports, body, Some(now), Some(now), 1);
      Some(Reported(s, s.events[n..] + [e], false, now, b))
  }

  /** A report from a watched source. None means it has to be retried. */
  ghost function RecordSource(s: Status, id: string, body: string, now: int, b: Buffer): Option<Status> {
    var p := Prepare(s);
    if p.None? then None
    else
      var at := FindRepeated(p.value.events, id, now, Window(b));
      if at.Some? then
        var events := p.value.events;
        Some(Reported(p.value, events[at.value := Repeated(events[at.value], [], body, now)], true, now, b))
      else Append(p.value, id, [], body, now, b)
  }

  datatype Delivery = Delivery(changed: bool, delivered: bool, status: Status)

  /** A signal report after its receipt was not found. */
  ghost function Deliver(s: Status, id: string, body: string, report: string, now: int, b: Buffer): Delivery {
    var p := Prepare(s);
    if p.None? then Delivery(false, false, s)
    else
      var events := p.value.events;
      var at := FindRepeated(events, id, now, Window(b));
      if at.Some? then
        if |events[at.value].reports| >= MAX_REPORTS_PER_EVENT then Delivery(false, false, s)
        else
          var e := Repeated(events[at.value], [report], body, now);
          Delivery(true, true, Reported(p.value, events[at.value := e], true, now, b))
      else
        var a := Append(p.value, if id == "" then report else id, [report], body, now, b);
        if a.None? then Delivery(false, false, s) else Delivery(true, true, a.value)
  }

  /** A signal report: known receipts are acknowledged again, new ones are recorded
      or refused for lack of room. */
  ghost function RecordSignal(s: Status, id: string, body: string, report: string, now: int, b: Buffer): Delivery {
    if report == "" then Delivery(false, false, s)
    else if HasReceipt(s.events, report) then Delivery(false, true, s)
    else Deliver(s, id, body, report, now, b)
  }
}
