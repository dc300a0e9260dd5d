/** What the row locks of the PostgreSQL store keep in every interleaving: one
    unfinished turn per thread, one turn per request, consecutive message numbers, and
    the history of a turn. */
module PostgresThreads {
  import opened Strings
  import opened ChatTypes
  import opened PostgresTurns
  import opened PostgresTheorems
  import TurnTheorems

  // ----- the thread row -----

  lemma ThreadRowHeld(tx: Tx)
    requires WritesMessages(tx.op) && tx.got == |Plan(tx.op)|
    ensures ThreadRow(ThreadOf(tx.op)) in Held(tx)
  {
    var at := if tx.op.Queue? then |Plan(tx.op)| - 1 else 0;
    assert Held(tx)[at] == ThreadRow(ThreadOf(tx.op));
  }

  /** Two transactions with all their locks write messages of different threads. */
  lemma {:induction false} ThreadsApart(hash: Hash, x: Tx, y: Tx)
    requires Apart(hash, x, y) && WritesMessages(x.op) && WritesMessages(y.op)
    requires x.got == |Plan(x.op)| && y.got == |Plan(y.op)|
    ensures ThreadOf(x.op) != ThreadOf(y.op)
  {
    if ThreadOf(x.op) == ThreadOf(y.op) {
      ThreadRowHeld(x);
      NeverBoth(hash, x, y, ThreadRow(ThreadOf(x.op)));
      ThreadRowHeld(y);
    }
  }

  // ----- one unfinished turn per thread -----

  ghost predicate OnePerThread(rows: map<string, Turn>) {
    forall a, b :: a in rows && b in rows && a != b && KeyOf(rows[a]) == KeyOf(rows[b]) ==>
      !(Active(rows[a]) && Active(rows[b]))
  }

  predicate Claims(tx: Tx) {
    tx.op.Queue? && tx.checked
  }

  /** Whoever has checked a thread still finds it free. */
  ghost predicate ThreadClaimed(rows: map<string, Turn>, tx: Tx) {
    Claims(tx) ==> tx.got == |Plan(tx.op)| && !ThreadOccupied(rows, tx.op.turn)
  }

  ghost predicate Claimed(s: State) {
    OnePerThread(s.rows) && forall i :: i in s.txs ==> ThreadClaimed(s.rows, s.txs[i])
  }

  /** The commit of an activation finds its turn finished. */
  predicate Revives(s: State, a: Action) {
    && a.Commit? && a.id in s.txs && s.txs[a.id].op.Activate?
    && s.txs[a.id].op.turn.id in s.rows && !Active(s.rows[s.txs[a.id].op.turn.id])
  }

  /** If it does, the thread is free and nobody has claimed it. */
  ghost predicate Harmless(s: State, a: Action) {
    Revives(s, a) ==>
      var row := s.rows[s.txs[a.id].op.turn.id];
      && !ThreadOccupied(s.rows, row)
      && forall j :: j in s.txs && Claims(s.txs[j]) ==> KeyOf(s.txs[j].op.turn) != KeyOf(row)
  }

  ghost predicate HarmlessRun(tr: Trace) {
    tr.Then? ==> HarmlessRun(tr.before) && Harmless(Last(tr.before), tr.action)
  }

  /** Writing one row keeps the threads single if its thread was not occupied by others. */
  lemma WriteSingle(rows: map<string, Turn>, id: string, row: Turn)
    requires OnePerThread(rows) && (id in rows ==> KeyOf(rows[id]) == KeyOf(row))
    requires Active(row) ==> (id in rows && Active(rows[id])) || !ThreadOccupied(rows, row)
    ensures OnePerThread(rows[id := row])
  {
  }

  lemma WriteKeepsClaim(rows: map<string, Turn>, id: string, row: Turn, tx: Tx)
    requires ThreadClaimed(rows, tx) && (id in rows ==> KeyOf(rows[id]) == KeyOf(row))
    requires Claims(tx) && Active(row) && KeyOf(tx.op.turn) == KeyOf(row) ==> id in rows && Active(rows[id])
    ensures ThreadClaimed(rows[id := row], tx)
  {
  }

  /** The row a commit writes keeps its thread; it is newly unfinished only if it was
      queued or revived. */
  lemma {:induction false} RowCommitted(s: State, tx: Tx)
    requires TxFenced(s.rows, tx) && CanCommit(s, tx)
    requires tx.op.Queue? || tx.op.Activate? || tx.op.Complete? || tx.op.Retry?
    ensures var (id, row) := (tx.op.turn.id, NewRow(s, tx));
      && Written(s, tx) == s.rows[id := row] && (id in s.rows ==> KeyOf(s.rows[id]) == KeyOf(row))
      && (Active(row) ==> (id in s.rows && Active(s.rows[id])) || tx.op.Queue? || tx.op.Activate?)
      && (tx.op.Queue? ==> row == tx.op.turn) && (tx.op.Activate? ==> id in s.rows && row == s.rows[id].(status := Queued))
  {
  }

  lemma {:induction false} CommittedRow(hash: Hash, s: State, i: nat)
    requires Fenced(hash, s) && i in s.txs && CanCommit(s, s.txs[i])
    requires var op := s.txs[i].op; op.Queue? || op.Activate? || op.Complete? || op.Retry?
    ensures var (id, row) := (s.txs[i].op.turn.id, NewRow(s, s.txs[i]));
      && Written(s, s.txs[i]) == s.rows[id := row] && (id in s.rows ==> KeyOf(s.rows[id]) == KeyOf(row))
      && (Active(row) ==> (id in s.rows && Active(s.rows[id])) || s.txs[i].op.Queue? || Revives(s, Commit(i)))
      && (s.txs[i].op.Queue? ==> row == s.txs[i].op.turn)
  {
    RowCommitted(s, s.txs[i]);
  }

  lemma {:induction false} CommitKeepsClaim(hash: Hash, s: State, i: nat, j: nat)
    requires Fenced(hash, s) && Claimed(s) && Harmless(s, Commit(i))
    requires i in s.txs && j in s.txs && i != j && CanCommit(s, s.txs[i])
    ensures ThreadClaimed(Written(s, s.txs[i]), s.txs[j])
  {
    var (x, y) := (s.txs[i], s.txs[j]);
    assert ThreadClaimed(s.rows, y);
    if x.op.Queue? || x.op.Activate? || x.op.Complete? || x.op.Retry? {
      CommittedRow(hash, s, i);
      if x.op.Queue? && Claims(y) {
        ThreadsApart(hash, x, y);
      }
      WriteKeepsClaim(s.rows, x.op.turn.id, NewRow(s, x), y);
    }
  }

  lemma {:induction false} CommitClaimed(hash: Hash, s: State, i: nat, s': State)
    requires Fenced(hash, s) && Claimed(s) && Harmless(s, Commit(i)) && Step(hash, s, Commit(i), s')
    ensures Claimed(s')
  {
    var x := s.txs[i];
    forall j | j in s'.txs ensures ThreadClaimed(s'.rows, s'.txs[j]) {
      CommitKeepsClaim(hash, s, i, j);
    }
    if x.op.Queue? || x.op.Activate? || x.op.Complete? || x.op.Retry? {
      CommittedRow(hash, s, i);
      assert ThreadClaimed(s.rows, x);
      WriteSingle(s.rows, x.op.turn.id, NewRow(s, x));
    }
  }

  lemma {:induction false} OpenClaimed(hash: Hash, s: State, a: Action, s': State)
    requires Claimed(s) && Step(hash, s, a, s') && !a.Commit?
    ensures Claimed(s')
  {
    if a.RecordRun? {
      WriteSingle(s.rows, a.turn.id, s'.rows[a.turn.id]);
      forall j | j in s'.txs ensures ThreadClaimed(s'.rows, s'.txs[j]) {
        WriteKeepsClaim(s.rows, a.turn.id, s'.rows[a.turn.id], s.txs[j]);
      }
    } else {
      forall j | j in s'.txs ensures ThreadClaimed(s'.rows, s'.txs[j]) {
        if j in s.txs { assert ThreadClaimed(s.rows, s.txs[j]); }
      }
    }
  }

  lemma {:induction false} RunClaimed(hash: Hash, tr: Trace)
    requires Run(hash, tr) && HarmlessRun(tr)
    ensures Claimed(Last(tr))
  {
    if tr.Then? {
      RunClaimed(hash, tr.before);
      if tr.action.Commit? {
        RunFenced(hash, tr.before);
        CommitClaimed(hash, Last(tr.before), tr.action.id, tr.state);
      } else {
        OpenClaimed(hash, Last(tr.before), tr.action, tr.state);
      }
    }
  }

  /** The thread row, held from the check to the commit, keeps threads single: in every
      run whose activations revive no turn on a thread occupied or claimed by another,
      no two committed turns of a thread are unfinished. */
  lemma {:induction false} OneTurnPerThread(hash: Hash, tr: Trace)
    requires Run(hash, tr) && HarmlessRun(tr)
    ensures OnePerThread(Last(tr).rows)
  {
    RunClaimed(hash, tr);
  }

  /** A revival that is not harmless breaks it at once, or leaves a claim whose commit
      breaks it. */
  lemma {:induction false} HarmfulRevival(hash: Hash, tr: Trace, a: Action, s': State)
    requires Run(hash, tr) && HarmlessRun(tr) && Step(hash, Last(tr), a, s') && !Harmless(Last(tr), a)
    ensures
      || !OnePerThread(s'.rows)
      || exists j :: j in s'.txs && Claims(s'.txs[j]) &&
           forall s'' :: Step(hash, s', Commit(j), s'') ==> !OnePerThread(s''.rows)
  {
    RunFenced(hash, tr);
    var s := Last(tr);
    var id := s.txs[a.id].op.turn.id;
    CommittedRow(hash, s, a.id);
    var row := s.rows[id];
    if ThreadOccupied(s.rows, row) {
      RevivalDoubles(s.rows, id, s'.rows[id]);
    } else {
      var j :| j in s.txs && Claims(s.txs[j]) && KeyOf(s.txs[j].op.turn) == KeyOf(row);
      assert s'.txs[j] == s.txs[j];
      forall s'' | Step(hash, s', Commit(j), s'') ensures !OnePerThread(s''.rows) {
        ClaimDoubles(hash, s', j, s'', id);
      }
    }
  }

  lemma {:induction false} RevivalDoubles(rows: map<string, Turn>, id: string, row: Turn)
    requires id in rows && !Active(rows[id]) && Active(row) && KeyOf(row) == KeyOf(rows[id]) && ThreadOccupied(rows, row)
    ensures !OnePerThread(rows[id := row])
  {
    var other :| other in rows && KeyOf(rows[other]) == KeyOf(row) && Active(rows[other]);
    var rows' := rows[id := row];
    assert other != id && rows'[other] == rows[other] && KeyOf(rows'[other]) == KeyOf(rows'[id]);
  }

  lemma {:induction false} ClaimDoubles(hash: Hash, s: State, j: nat, s': State, id: string)
    requires Step(hash, s, Commit(j), s') && Claims(s.txs[j])
    requires id in s.rows && Active(s.rows[id]) && KeyOf(s.rows[id]) == KeyOf(s.txs[j].op.turn)
    ensures !OnePerThread(s'.rows)
  {
    var t := s.txs[j].op.turn;
    assert t.id != id && s'.rows[id] == s.rows[id] && s'.rows[t.id] == t && Active(t);
  }

  // ----- one turn per request -----

  ghost predicate RequestsUnique(rows: map<string, Turn>) {
    forall a, b :: a in rows && b in rows && a != b && rows[a].threadId == rows[b].threadId ==>
      rows[a].requestId != rows[b].requestId
  }

  ghost predicate RequestClaimed(rows: map<string, Turn>, tx: Tx) {
    Claims(tx) ==> tx.got == |Plan(tx.op)| && !Requested(rows, tx.op.turn)
  }

  ghost predicate Requests(s: State) {
    RequestsUnique(s.rows) && forall i :: i in s.txs ==> RequestClaimed(s.rows, s.txs[i])
  }

  predicate SameRequest(a: Turn, b: Turn) {
    a.threadId == b.threadId && a.requestId == b.requestId
  }

  lemma WriteRequest(rows: map<string, Turn>, id: string, row: Turn)
    requires RequestsUnique(rows) && if id in rows then SameRequest(rows[id], row) else !Requested(rows, row)
    ensures RequestsUnique(rows[id := row])
  {
  }

  lemma WriteKeepsRequest(rows: map<string, Turn>, id: string, row: Turn, tx: Tx)
    requires RequestClaimed(rows, tx)
    requires Claims(tx) ==> (id in rows && SameRequest(rows[id], row)) || tx.op.turn.threadId != row.threadId
    ensures RequestClaimed(rows[id := row], tx)
  {
  }

  lemma {:induction false} CommitRequests(hash: Hash, s: State, i: nat, s': State)
    requires Fenced(hash, s) && Requests(s) && Step(hash, s, Commit(i), s')
    ensures Requests(s')
  {
    var x := s.txs[i];
    assert TxFenced(s.rows, x) && RequestClaimed(s.rows, x);
    if x.op.Queue? || x.op.Activate? || x.op.Complete? || x.op.Retry? {
      var (id, row) := (x.op.turn.id, NewRow(s, x));
      WriteRequest(s.rows, id, row);
      forall j | j in s'.txs ensures RequestClaimed(s'.rows, s'.txs[j]) {
        assert RequestClaimed(s.rows, s.txs[j]);
        if x.op.Queue? && Claims(s.txs[j]) {
          ThreadsApart(hash, x, s.txs[j]);
        }
        WriteKeepsRequest(s.rows, id, row, s.txs[j]);
      }
    }
  }

  lemma {:induction false} RecordRequests(hash: Hash, s: State, a: Action, s': State)
    requires Requests(s) && a.RecordRun? && Step(hash, s, a, s')
    ensures Requests(s')
  {
    WriteRequest(s.rows, a.turn.id, s'.rows[a.turn.id]);
    forall j | j in s'.txs ensures RequestClaimed(s'.rows, s'.txs[j]) {
      WriteKeepsRequest(s.rows, a.turn.id, s'.rows[a.turn.id], s.txs[j]);
    }
  }

  lemma {:induction false} OpenRequests(hash: Hash, s: State, a: Action, s': State)
    requires Requests(s) && Step(hash, s, a, s') && !a.Commit? && !a.RecordRun?
    ensures Requests(s')
  {
    assert s'.rows == s.rows;
    forall j | j in s'.txs ensures RequestClaimed(s'.rows, s'.txs[j]) {
      OpenKeepsRequest(hash, s, a, s', j);
    }
  }

  lemma {:induction false} OpenKeepsRequest(hash: Hash, s: State, a: Action, s': State, j: nat)
    requires Step(hash, s, a, s') && !a.Commit? && !a.RecordRun? && j in s'.txs
    requires j in s.txs ==> RequestClaimed(s.rows, s.txs[j])
    ensures RequestClaimed(s'.rows, s'.txs[j])
  {
    if j !in s.txs {
      assert !s'.txs[j].checked;
    }
  }

  lemma {:induction false} RunRequests(hash: Hash, tr: Trace)
    requires Run(hash, tr)
    ensures Requests(Last(tr))
  {
    if tr.Then? {
      RunRequests(hash, tr.before);
      if tr.action.Commit? {
        RunFenced(hash, tr.before);
        CommitRequests(hash, Last(tr.before), tr.action.id, tr.state);
      } else if tr.action.RecordRun? {
        RecordRequests(hash, Last(tr.before), tr.action, tr.state);
      } else {
        OpenRequests(hash, Last(tr.before), tr.action, tr.state);
      }
    }
  }

  /** Requests are idempotent under concurrency: in every run, with no further condition,
      a request of a thread is stored as one turn. */
  lemma {:induction false} OneTurnPerRequest(hash: Hash, tr: Trace)
    requires Run(hash, tr)
    ensures RequestsUnique(Last(tr).rows)
  {
    RunRequests(hash, tr);
  }

  // ----- the checks -----

  predicate SharesResource(row: Turn, t: Turn) {
    row.namespace == t.namespace && (row.profile == t.profile || exists k :: k in row.lockKeys && k in t.lockKeys)
  }

  ghost predicate NoneBusy(rows: map<string, Turn>, t: Turn) {
    forall id :: id in rows && SharesResource(rows[id], t) ==> rows[id].status !in {Queued, Running}
  }

  /** With its locks taken a queuing transaction goes on exactly if the request is new, no
      turn of the thread is unfinished and, unless it is deferred, no resource is busy; an
      activating one exactly if its turn is waiting and no resource is busy. */
  lemma {:induction false} CheckExactly(s: State, i: nat)
    requires i in s.txs
    ensures var (tx, rows) := (s.txs[i], s.rows);
      CheckPasses(s, tx) <==>
        match tx.op
        case Queue(t) =>
          && tx.got == |Plan(tx.op)|
          && (forall id :: id in rows && rows[id].threadId == t.threadId ==>
                && rows[id].requestId != t.requestId
                && (rows[id].namespace == t.namespace ==> rows[id].status !in {Waiting, Queued, Running}))
          && (t.deferred || NoneBusy(rows, t))
        case Activate(t) =>
          tx.got == |Plan(tx.op)| - 1 && t.id in rows && rows[t.id].status == Waiting && NoneBusy(rows, t)
        case _ => false
  {
    var (tx, rows) := (s.txs[i], s.rows);
    if tx.op.Queue? || tx.op.Activate? {
      BusyExactly(rows, tx.op.turn);
    }
  }

  lemma {:induction false} BusyExactly(rows: map<string, Turn>, t: Turn)
    ensures RowsBusy(rows, t) <==> !NoneBusy(rows, t)
  {
    assert forall id :: id in rows ==> (Conflicts(rows[id], t) <==> SharesResource(rows[id], t));
  }

  /** A run is bound only to a queued or running turn, in the attempt the caller names, that
      has none or this one, and nothing else changes. */
  lemma {:induction false} BoundToAttempt(hash: Hash, tr: Trace, t: Turn, uid: string, s': State)
    requires Run(hash, tr) && Step(hash, Last(tr), RecordRun(t, uid), s')
    ensures var rows := Last(tr).rows;
      && t.id in rows && rows[t.id].id == t.id && rows[t.id].status in {Queued, Running}
      && rows[t.id].namespace == t.namespace && rows[t.id].threadId == t.threadId
      && rows[t.id].runName == t.runName && rows[t.id].retryCount == t.retryCount && rows[t.id].runUid in {"", uid}
      && s' == Last(tr).(rows := rows[t.id := rows[t.id].(runUid := uid)])
  {
    RunFenced(hash, tr);
  }

  // ----- message numbers -----

  predicate Consecutive(numbers: seq<int>) {
    forall i :: 0 <= i < |numbers| ==> numbers[i] == i + 1
  }

  lemma {:induction false} HighestConsecutive(numbers: seq<int>)
    requires Consecutive(numbers)
    ensures Highest(numbers) == |numbers|
  {
    if numbers != [] {
      HighestConsecutive(numbers[..|numbers| - 1]);
    }
  }

  /** A number once read stays the next one of its thread. */
  ghost predicate NumberClaimed(s: State, tx: Tx) {
    tx.number.Some? ==>
      && WritesMessages(tx.op) && tx.got == |Plan(tx.op)|
      && tx.number.value == |Numbers(s, ThreadOf(tx.op))| + 1 && 0 < MessageCount(tx.op) <= 16
      && (tx.op.Queue? && tx.op.turn.expectedSequence.Some? ==>
            tx.op.turn.expectedSequence.value == |Numbers(s, ThreadOf(tx.op))|)
  }

  ghost predicate Numbered(s: State) {
    && (forall thread :: thread in s.numbers ==> Consecutive(s.numbers[thread]))
    && (forall i :: i in s.txs ==> NumberClaimed(s, s.txs[i]))
  }

  lemma {:induction false} CommitNumbers(hash: Hash, s: State, i: nat, s': State)
    requires LocksExclusive(hash, s) && Numbered(s) && Step(hash, s, Commit(i), s')
    ensures Numbered(s')
  {
    var x := s.txs[i];
    assert NumberClaimed(s, x);
    if WritesMessages(x.op) {
      var thread := ThreadOf(x.op);
      assert Consecutive(Numbers(s, thread));
      assert Consecutive(s'.numbers[thread]);
      forall j | j in s'.txs ensures NumberClaimed(s', s'.txs[j]) {
        assert NumberClaimed(s, s.txs[j]);
        if s.txs[j].number.Some? {
          ThreadsApart(hash, x, s.txs[j]);
        }
      }
    } else {
      forall j | j in s'.txs ensures NumberClaimed(s', s'.txs[j]) {
        assert NumberClaimed(s, s.txs[j]);
      }
    }
  }

  lemma {:induction false} TakeNumber(hash: Hash, s: State, a: Action, s': State)
    requires Numbered(s) && a.Number? && Step(hash, s, a, s')
    ensures Numbered(s')
  {
    var numbers := Numbers(s, ThreadOf(s.txs[a.id].op));
    assert Consecutive(numbers);
    HighestConsecutive(numbers);
    forall j | j in s'.txs ensures NumberClaimed(s', s'.txs[j]) {
      assert NumberClaimed(s, s.txs[j]);
    }
  }

  lemma {:induction false} OpenLeavesNumber(hash: Hash, s: State, a: Action, s': State, j: nat)
    requires Step(hash, s, a, s') && !a.Commit? && !a.Number? && j in s'.txs
    ensures s'.numbers == s.numbers
    ensures j !in s.txs ==> s'.txs[j].number.None?
    ensures j in s.txs ==>
      && s'.txs[j].op == s.txs[j].op && s'.txs[j].number == s.txs[j].number
      && (s.txs[j].got == |Plan(s.txs[j].op)| ==> s'.txs[j].got == s.txs[j].got)
  {
  }

  /** Other steps leave numbers and what a transaction has read of them alone. */
  lemma {:induction false} OpenKeepsNumber(hash: Hash, s: State, a: Action, s': State, j: nat)
    requires Step(hash, s, a, s') && !a.Commit? && !a.Number? && j in s'.txs
    requires j in s.txs ==> NumberClaimed(s, s.txs[j])
    ensures s'.numbers == s.numbers && NumberClaimed(s', s'.txs[j])
  {
    OpenLeavesNumber(hash, s, a, s', j);
  }

  lemma {:induction false} OpenNumbers(hash: Hash, s: State, a: Action, s': State)
    requires Numbered(s) && Step(hash, s, a, s') && !a.Commit? && !a.Number?
    ensures Numbered(s')
  {
    assert s'.numbers == s.numbers;
    forall j | j in s'.txs ensures NumberClaimed(s', s'.txs[j]) {
      OpenKeepsNumber(hash, s, a, s', j);
    }
  }

  lemma {:induction false} RunNumbers(hash: Hash, tr: Trace)
    requires Run(hash, tr)
    ensures Numbered(Last(tr))
  {
    if tr.Then? {
      RunNumbers(hash, tr.before);
      if tr.action.Commit? {
        RunLocksExclusive(hash, tr.before);
        CommitNumbers(hash, Last(tr.before), tr.action.id, tr.state);
      } else if tr.action.Number? {
        TakeNumber(hash, Last(tr.before), tr.action, tr.state);
      } else {
        OpenNumbers(hash, Last(tr.before), tr.action, tr.state);
      }
    }
  }

  /** In every run the messages of a thread are numbered 1, 2, 3 and so on. */
  lemma {:induction false} ConsecutiveNumbers(hash: Hash, tr: Trace, thread: string)
    requires Run(hash, tr)
    ensures Consecutive(Numbers(Last(tr), thread))
  {
    RunNumbers(hash, tr);
  }

  /** A committed turn whose caller expected `n` messages found exactly `n`, and its user
      message is number n + 1. */
  lemma {:induction false} ExpectedLength(hash: Hash, tr: Trace, i: nat, s': State)
    requires Run(hash, tr) && Step(hash, Last(tr), Commit(i), s') && Last(tr).txs[i].op.Queue?
    ensures var (t, s) := (Last(tr).txs[i].op.turn, Last(tr));
      && Numbers(s', t.threadId) == Numbers(s, t.threadId) + [|Numbers(s, t.threadId)| + 1]
      && (t.expectedSequence.Some? ==> t.expectedSequence.value == |Numbers(s, t.threadId)|)
  {
    RunNumbers(hash, tr);
    NumberCommitted(Last(tr), Last(tr).txs[i]);
  }

  /** A committed batch has between 1 and 16 messages, under the next numbers. */
  lemma {:induction false} BatchNumbers(hash: Hash, tr: Trace, i: nat, s': State)
    requires Run(hash, tr) && Step(hash, Last(tr), Commit(i), s') && Last(tr).txs[i].op.Append?
    ensures var (s, thread, size) := (Last(tr), Last(tr).txs[i].op.thread, Last(tr).txs[i].op.size);
      && 0 < size <= 16 && |Numbers(s', thread)| == |Numbers(s, thread)| + size
      && Numbers(s, thread) <= Numbers(s', thread) && Consecutive(Numbers(s', thread))
  {
    RunNumbers(hash, tr);
    CommitStep(hash, tr, i, s');
    RunNumbers(hash, Then(tr, Commit(i), s'));
    assert NumberClaimed(Last(tr), Last(tr).txs[i]);
  }

  lemma CommitStep(hash: Hash, tr: Trace, i: nat, s': State)
    requires Run(hash, tr) && Step(hash, Last(tr), Commit(i), s')
    ensures Run(hash, Then(tr, Commit(i), s'))
  {
  }

  lemma {:induction false} NumberCommitted(s: State, tx: Tx)
    requires NumberClaimed(s, tx) && CanCommit(s, tx) && tx.op.Queue?
    ensures var (t, numbers) := (tx.op.turn, WrittenNumbers(s, tx));
      && t.threadId in numbers && numbers[t.threadId] == Numbers(s, t.threadId) + [|Numbers(s, t.threadId)| + 1]
      && (t.expectedSequence.Some? ==> t.expectedSequence.value == |Numbers(s, t.threadId)|)
  {
    assert seq(1, k => tx.number.value + k) == [tx.number.value];
  }

  // ----- the history of a turn -----

  /** No lost updates: completion and retry write back the version they read, and yet
      what every commit writes is the current row with exactly its own change. */
  lemma {:induction false} NoLostUpdate(hash: Hash, tr: Trace, i: nat, s': State)
    requires Run(hash, tr) && Step(hash, Last(tr), Commit(i), s')
    ensures var (rows, rows', op) := (Last(tr).rows, s'.rows, Last(tr).txs[i].op);
      match op
      case Queue(t) => t.id !in rows && rows' == rows[t.id := t]
      case Activate(t) => t.id in rows && rows' == rows[t.id := rows[t.id].(status := Queued)]
      case Complete(t) =>
        && t.id in rows && Active(rows[t.id]) && !Active(t)
        && rows' == rows[t.id := rows[t.id].(status := t.status, error := t.error, delegates := t.delegates)]
      case Retry(t, retry, now) =>
        && t.id in rows && PrepareTurnRetry(rows[t.id], t, retry, now).Ok?
        && rows' == rows[t.id := PrepareTurnRetry(rows[t.id], t, retry, now).value]
      case _ => rows' == rows
  {
    RunFenced(hash, tr);
    assert TxFenced(Last(tr).rows, Last(tr).txs[i]);
  }

  lemma {:induction false} RetryFollows(row: Turn, t: Turn, retry: TurnRetry, now: int)
    requires PrepareTurnRetry(row, t, retry, now).Ok?
    ensures TurnTheorems.Follows(row, PrepareTurnRetry(row, t, retry, now).value)
  {
  }

  /** The versions of a row that a completion, a retry or a bound run leaves. */
  lemma {:induction false} ChangeFollows(row: Turn, row': Turn)
    requires
      || (Active(row) && row' == row.(status := row'.status, error := row'.error, delegates := row'.delegates))
      || (Active(row) && row' == row.(status := Queued))
      || (Active(row) && (row.runUid == "" || row.runUid == row'.runUid) && row' == row.(runUid := row'.runUid))
      || row' == row
    ensures TurnTheorems.Follows(row, row')
  {
  }

  lemma {:induction false} CommitFollows(hash: Hash, tr: Trace, i: nat, s': State, id: string)
    requires Run(hash, tr) && Step(hash, Last(tr), Commit(i), s') && id in Last(tr).rows
    ensures id in s'.rows
    ensures
      || TurnTheorems.Follows(Last(tr).rows[id], s'.rows[id])
      || (Revives(Last(tr), Commit(i)) && RevivedBy(Last(tr), Commit(i), id) && s'.rows[id] == Last(tr).rows[id].(status := Queued))
  {
    NoLostUpdate(hash, tr, i, s');
    var (row, op) := (Last(tr).rows[id], Last(tr).txs[i].op);
    if op.Retry? && op.turn.id == id {
      RetryFollows(row, op.turn, op.retry, op.now);
    } else if !RevivedBy(Last(tr), Commit(i), id) || Active(row) {
      ChangeFollows(row, s'.rows[id]);
    }
  }

  /** In every step of every run a stored turn stays and only moves forward, unless it is
      revived, and then nothing but its status changes. */
  lemma {:induction false} RowFollows(hash: Hash, tr: Trace, a: Action, s': State, id: string)
    requires Run(hash, tr) && Step(hash, Last(tr), a, s') && id in Last(tr).rows
    ensures id in s'.rows
    ensures
      || TurnTheorems.Follows(Last(tr).rows[id], s'.rows[id])
      || (Revives(Last(tr), a) && RevivedBy(Last(tr), a, id) && s'.rows[id] == Last(tr).rows[id].(status := Queued))
  {
    if a.Commit? {
      CommitFollows(hash, tr, a.id, s', id);
    } else {
      ChangeFollows(Last(tr).rows[id], s'.rows[id]);
    }
  }

  ghost predicate Continues(tr: Trace, earlier: Trace) {
    tr == earlier || (tr.Then? && Continues(tr.before, earlier))
  }

  /** No step of the run after `earlier` revives the turn. */
  ghost predicate NotRevived(tr: Trace, earlier: Trace, id: string) {
    tr == earlier ||
    (tr.Then? && NotRevived(tr.before, earlier, id) && !(Revives(Last(tr.before), tr.action) && RevivedBy(Last(tr.before), tr.action, id)))
  }

  /** Over any stretch of any run that does not revive it, a stored turn keeps its
      identity, its bound run within an attempt and one receipt per superseded attempt,
      and never changes once finished. */
  lemma {:induction false} RowsFollow(hash: Hash, tr: Trace, earlier: Trace, id: string)
    requires Run(hash, tr) && NotRevived(tr, earlier, id) && id in Last(earlier).rows
    ensures id in Last(tr).rows && TurnTheorems.Follows(Last(earlier).rows[id], Last(tr).rows[id])
  {
    if tr != earlier {
      RowsFollow(hash, tr.before, earlier, id);
      RowFollows(hash, tr.before, tr.action, tr.state, id);
      TurnTheorems.FollowsTransitive(Last(earlier).rows[id], Last(tr.before).rows[id], Last(tr).rows[id]);
    }
  }

  /** At this point or at an earlier one of the same transaction, its turn was waiting and
      none of the resources it named was busy. */
  ghost predicate SawWaiting(tr: Trace, i: nat) {
    && i in Last(tr).txs && Last(tr).txs[i].op.Activate?
    && var (s, t) := (Last(tr), Last(tr).txs[i].op.turn);
       || (t.id in s.rows && s.rows[t.id].status == Waiting && !RowsBusy(s.rows, t))
       || (tr.Then? && SawWaiting(tr.before, i) && Last(tr.before).txs[i].op == s.txs[i].op)
  }

  /** An activation commits only if its turn was waiting, with its resources free, while
      it was in progress. */
  lemma {:induction false} ActivationSawWaiting(hash: Hash, tr: Trace, i: nat)
    requires Run(hash, tr) && i in Last(tr).txs && Last(tr).txs[i].op.Activate? && Last(tr).txs[i].checked
    ensures SawWaiting(tr, i)
  {
    if tr.Then? {
      CheckedBy(hash, Last(tr.before), tr.action, tr.state, i);
      if i in Last(tr.before).txs && Last(tr.before).txs[i].checked {
        ActivationSawWaiting(hash, tr.before, i);
      }
    }
  }

  lemma {:induction false} CheckedBy(hash: Hash, s: State, a: Action, s': State, i: nat)
    requires Step(hash, s, a, s') && i in s'.txs && s'.txs[i].op.Activate? && s'.txs[i].checked
    ensures i in s.txs && s.txs[i].op == s'.txs[i].op
    ensures s.txs[i].checked ||
      var t := s'.txs[i].op.turn; t.id in s'.rows && s'.rows[t.id].status == Waiting && !RowsBusy(s'.rows, t)
  {
  }
}
