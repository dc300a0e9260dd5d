/** When automatic instances of a chain are due. Times are whole seconds. */
module ChainCadence {
  import opened Strings
  import opened AgentRuns
  import opened ChainTypes

  function NextCadenceAfter(base: int, interval: int, now: int): int {
    var next := base + interval;
    if interval <= 0 || next > now then next
    else
      var missed := (now - next) / interval + 1;
      next + missed * interval
  }

  /** The k-th deadline after `base`. */
  function Deadline(base: int, interval: int, k: int): int {
    base + k * interval
  }

  lemma Multiples(a: int, b: int, d: int)
    requires a <= b && d > 0
    ensures a * d <= b * d
  {
  }

  lemma {:induction false} Quotients(x: int, y: int, d: int)
    requires x <= y && d > 0
    ensures x / d <= y / d
  {
    if y / d < x / d {
      Multiples(y / d + 1, x / d, d);
    }
  }

  /** Recovery schedules the first deadline base + k * interval, k >= 1, after now. */
  lemma {:induction false} NextCadenceFirst(base: int, interval: int, now: int) returns (k: int)
    requires interval > 0
    ensures k >= 1 && NextCadenceAfter(base, interval, now) == Deadline(base, interval, k) > now
    ensures forall j :: 1 <= j < k ==> Deadline(base, interval, j) <= now
  {
    var next := base + interval;
    if next > now {
      k := 1;
    } else {
      var q := (now - next) / interval;
      assert now - next == q * interval + (now - next) % interval;
      k := q + 2;
      assert (q + 1) * interval == q * interval + interval;
      assert k * interval == (q + 1) * interval + interval;
      forall j | 1 <= j < k ensures Deadline(base, interval, j) <= now {
        Multiples(j, q + 1, interval);
      }
    }
  }

  /** The time of the first automatic start. */
  function FirstStart(spec: Spec, createdAt: int): int {
    if spec.delay > 0 then createdAt + spec.delay else createdAt
  }

  /** The latest deadline not after `now`, or the first one while it is ahead. */
  function Boundary(base: int, interval: int, now: int): int
    requires interval > 0
  {
    if base < now then base + (now - base) / interval * interval else base
  }

  function NextStart(spec: Spec, createdAt: int, stored: Option<int>, now: int): Option<int> {
    if spec.interval <= 0 then None
    else if stored.Some? then stored
    else Some(Boundary(FirstStart(spec, createdAt), spec.interval, now))
  }

  lemma {:induction false} BoundaryMonotone(base: int, interval: int, now: int, later: int)
    requires interval > 0 && now <= later
    ensures Boundary(base, interval, now) <= Boundary(base, interval, later)
    ensures base <= now ==> Boundary(base, interval, now) <= now
  {
    if base < now {
      Quotients(now - base, later - base, interval);
      Multiples((now - base) / interval, (later - base) / interval, interval);
    } else if base < later {
      Multiples(0, (later - base) / interval, interval);
    }
  }

  /** A time lies before the boundary exactly if a deadline has passed since. */
  lemma BoundaryLast(base: int, interval: int, now: int, d: int)
    requires interval > 0 && Boundary(base, interval, now) <= now
    ensures d < Boundary(base, interval, now) <==> exists k :: k >= 0 && d < Deadline(base, interval, k) <= now
  {
    var q := (now - base) / interval;
    Multiples(0, q, interval);
    assert Boundary(base, interval, now) == Deadline(base, interval, q);
    forall k | k >= 0 && Deadline(base, interval, k) <= now ensures Deadline(base, interval, k) <= Deadline(base, interval, q) {
      if k > q {
        Multiples(q + 1, k, interval);
      } else {
        Multiples(k, q, interval);
      }
    }
  }

  /** The due time that names an instance. */
  function DueAt(spec: Spec, createdAt: int, manual: bool, nextStart: Option<int>, now: int): int {
    if manual then now
    else if nextStart.Some? then nextStart.value
    else if spec.interval > 0 then Boundary(FirstStart(spec, createdAt), spec.interval, now)
    else now
  }

  function Delay(b: Backoff, phase: RunPhase): int {
    match phase
    case Failed => b.failed
    case NeedsHuman => b.needsHuman
    case _ => 0
  }

  function FinishedAt(run: Child): int {
    if run.completedAt.Some? then run.completedAt.value else run.createdAt
  }

  /** The next start after an instance stopped: a backoff never shortens a deadline. */
  function BackedOff(b: Option<Backoff>, next: Option<int>, run: Child, now: int): (r: Option<int>)
    ensures next.Some? ==> r.Some? && next.value <= r.value
    ensures r == next || (r.Some? && now <= r.value)
  {
    if b.None? || Delay(b.value, run.phase) <= 0 then next
    else
      var until := FinishedAt(run) + Delay(b.value, run.phase);
      if until < now || (next.Some? && next.value > until) then next else Some(until)
  }

  predicate Halted(p: RunPhase) {
    p == Failed || p == NeedsHuman
  }

  /** The time before which no automatic start is made after a failed last step. */
  function BackoffUntil(b: Option<Backoff>, s: Status, runs: map<Name, Child>, now: int): (r: Option<int>)
    ensures r.Some? ==> now < r.value
  {
    if b.None? || s.stepRuns == [] then None
    else
      var last := s.stepRuns[|s.stepRuns| - 1];
      if s.nextStartAt.Some? && s.nextStartAt.value > now && Halted(last.phase) then s.nextStartAt
      else if Delay(b.value, last.phase) <= 0 then None
      else
        var finishedAt := if last.name in runs then FinishedAt(runs[last.name]) else now;
        var until := finishedAt + Delay(b.value, last.phase);
        if until > now then Some(until) else None
  }
}
