/** What every interleaving of the PostgreSQL transactions keeps: resource
    exclusion, fenced attempts, and progress. */
module PostgresTheorems {
  import opened Strings
  import opened ChatTypes
  import opened PostgresTurns

  // ----- mutual exclusion -----

  /** No two committed busy turns of one namespace share a profile or a lock key. */
  ghost predicate RowsExclusive(rows: map<string, Turn>) {
    forall a, b :: a in rows && b in rows && a != b && Busy(rows[a]) && Busy(rows[b]) ==> !Conflicts(rows[a], rows[b])
  }

  predicate WillHold(op: Op) {
    op.Activate? || (op.Queue? && !op.turn.deferred)
  }

  /** What a transaction in progress may rely on, whoever called it: the row it has read
      is still stored, unfinished and of the attempt the caller saw. */
  ghost predicate TxFenced(rows: map<string, Turn>, tx: Tx) {
    && tx.got <= |Plan(tx.op)|
    && (tx.seen.Some? ==>
          && (tx.op.Complete? || tx.op.Retry?)
          && tx.got == |Plan(tx.op)|
          && tx.op.turn.id in rows && rows[tx.op.turn.id] == tx.seen.value
          && Active(tx.seen.value) && SameTurnAttempt(tx.seen.value, tx.op.turn)
          && (tx.op.Complete? ==> !Active(tx.op.turn)))
  }

  /** What it may rely on besides if the callers are disciplined. */
  ghost predicate TxSound(rows: map<string, Turn>, tx: Tx) {
    && TxFenced(rows, tx)
    && (tx.checked ==>
          && (tx.op.Queue? || tx.op.Activate?)
          && tx.got >= |ResourceLocks(tx.op.turn)|
          && (WillHold(tx.op) ==> !RowsBusy(rows, tx.op.turn)))
    && (tx.op.Activate? ==> tx.op.turn.id in rows && SameResources(rows[tx.op.turn.id], tx.op.turn))
    && (tx.seen.Some? && tx.op.Retry? ==> Busy(tx.seen.value))
  }

  ghost predicate Sound(hash: Hash, s: State) {
    && LocksExclusive(hash, s)
    && (forall id :: id in s.rows ==> s.rows[id].id == id)
    && RowsExclusive(s.rows)
    && (forall i :: i in s.txs ==> TxSound(s.rows, s.txs[i]))
  }

  lemma KeyLocked(t: Turn, key: string)
    requires key == "profile:" + t.profile || key in t.lockKeys
    ensures Advisory(t.namespace + "/" + key) in ResourceLocks(t)
  {
    var keys := ["profile:" + t.profile] + t.lockKeys;
    assert key in keys by {
      if key == "profile:" + t.profile { assert keys[0] == key; } else { assert key in keys[1..]; }
    }
    SortStringsMembers(keys, key);
    var i :| 0 <= i < |ResourceKeys(t)| && ResourceKeys(t)[i] == key;
    assert ResourceLocks(t)[i] == Advisory(t.namespace + "/" + key);
  }

  /** Turns that share a resource share an advisory lock. */
  lemma SharedLock(t: Turn, u: Turn) returns (lock: Lock)
    requires Conflicts(t, u)
    ensures lock in ResourceLocks(t) && lock in ResourceLocks(u)
  {
    var key := "profile:" + t.profile;
    if t.profile != u.profile {
      key :| key in t.lockKeys && key in u.lockKeys;
    }
    KeyLocked(t, key);
    KeyLocked(u, key);
    lock := Advisory(t.namespace + "/" + key);
  }

  lemma HoldsResources(tx: Tx, lock: Lock)
    requires tx.op.Queue? || tx.op.Activate?
    requires |ResourceLocks(tx.op.turn)| <= tx.got <= |Plan(tx.op)| && lock in ResourceLocks(tx.op.turn)
    ensures lock in Held(tx)
  {
    var i :| 0 <= i < |ResourceLocks(tx.op.turn)| && ResourceLocks(tx.op.turn)[i] == lock;
    assert Held(tx)[i] == lock;
  }

  lemma NeverBoth(hash: Hash, x: Tx, y: Tx, lock: Lock)
    requires Apart(hash, x, y) && lock in Held(x)
    ensures lock !in Held(y)
  {
  }

  /** Two checked transactions never want a common resource. */
  lemma {:induction false} CheckedApart(hash: Hash, s: State, i: nat, j: nat)
    requires Sound(hash, s) && i in s.txs && j in s.txs && i != j && s.txs[i].checked && s.txs[j].checked
    ensures !Conflicts(s.txs[i].op.turn, s.txs[j].op.turn)
  {
    var x, y := s.txs[i], s.txs[j];
    if Conflicts(x.op.turn, y.op.turn) {
      var lock := SharedLock(x.op.turn, y.op.turn);
      HoldsResources(x, lock);
      NeverBoth(hash, x, y, lock);
      HoldsResources(y, lock);
    }
  }

  lemma TurnRowHeld(tx: Tx)
    requires tx.op.Activate? || tx.op.Complete? || tx.op.Retry?
    requires tx.got == |Plan(tx.op)|
    ensures TurnRow(tx.op.turn.id) in Held(tx)
  {
    assert Held(tx)[|Plan(tx.op)| - 1] == TurnRow(tx.op.turn.id);
  }

  /** A row that one transaction writes is not the row another has read. */
  lemma WritersApart(hash: Hash, s: State, i: nat, j: nat)
    requires Sound(hash, s) && i in s.txs && j in s.txs && i != j
    requires s.txs[i].op.Activate? || s.txs[i].op.Complete? || s.txs[i].op.Retry?
    requires s.txs[i].got == |Plan(s.txs[i].op)| && s.txs[j].seen.Some?
    ensures s.txs[i].op.turn.id != s.txs[j].op.turn.id
  {
    var x, y := s.txs[i], s.txs[j];
    if x.op.turn.id == y.op.turn.id {
      TurnRowHeld(x);
      NeverBoth(hash, x, y, TurnRow(x.op.turn.id));
      TurnRowHeld(y);
    }
  }

  /** Writing one row leaves `tx` sound if that row is not one it has read, keeps
      its resources, and does not newly hold a resource that `tx` waits to hold. */
  lemma WriteKeepsTx(rows: map<string, Turn>, tx: Tx, id: string, row: Turn)
    requires TxSound(rows, tx)
    requires id in rows ==> SameResources(row, rows[id])
    requires tx.seen.Some? ==> tx.op.turn.id != id
    requires tx.checked && WillHold(tx.op) && Busy(row) ==>
      (id in rows && Busy(rows[id])) || !Conflicts(row, tx.op.turn)
    ensures TxSound(rows[id := row], tx)
  {
  }

  /** Writing one row keeps the rows exclusive if it was busy before, is not busy
      now, or meets no busy row. */
  lemma WriteExclusive(rows: map<string, Turn>, id: string, row: Turn)
    requires RowsExclusive(rows)
    requires id in rows ==> SameResources(row, rows[id])
    requires Busy(row) ==> (id in rows && Busy(rows[id])) || !RowsBusy(rows, row)
    ensures RowsExclusive(rows[id := row])
  {
  }

  /** The row a commit leaves behind, for the transactions that write one. */
  function NewRow(s: State, tx: Tx): Turn
    requires CanCommit(s, tx) && (tx.op.Queue? || tx.op.Activate? || tx.op.Complete? || tx.op.Retry?)
  {
    Written(s, tx)[tx.op.turn.id]
  }

  lemma NewRowProperties(s: State, tx: Tx)
    requires TxSound(s.rows, tx) && CanCommit(s, tx)
    requires tx.op.Queue? || tx.op.Activate? || tx.op.Complete? || tx.op.Retry?
    requires tx.op.turn.id in s.rows ==> s.rows[tx.op.turn.id].id == tx.op.turn.id
    ensures
      var id, row := tx.op.turn.id, NewRow(s, tx);
      && Written(s, tx) == s.rows[id := row] && row.id == id
      && (id in s.rows ==> SameResources(row, s.rows[id]))
      && (Busy(row) ==>
            || (id in s.rows && Busy(s.rows[id]))
            || (tx.checked && WillHold(tx.op) && SameResources(row, tx.op.turn)))
  {
  }

  lemma {:induction false} CommitKeepsOthers(hash: Hash, s: State, i: nat, j: nat)
    requires Sound(hash, s) && i in s.txs && j in s.txs && i != j && CanCommit(s, s.txs[i])
    ensures TxSound(Written(s, s.txs[i]), s.txs[j])
  {
    var x, y := s.txs[i], s.txs[j];
    if x.op.Queue? || x.op.Activate? || x.op.Complete? || x.op.Retry? {
      NewRowProperties(s, s.txs[i]);
      if x.checked && y.checked {
        CheckedApart(hash, s, i, j);
      }
      if y.seen.Some? && !x.op.Queue? {
        WritersApart(hash, s, i, j);
      }
      WriteKeepsTx(s.rows, y, x.op.turn.id, NewRow(s, x));
    }
  }

  lemma {:induction false} CommitSound(hash: Hash, s: State, i: nat)
    requires Sound(hash, s) && i in s.txs && CanCommit(s, s.txs[i])
    ensures Sound(hash, State(Written(s, s.txs[i]), s.txs - {i}, WrittenNumbers(s, s.txs[i])))
  {
    var x := s.txs[i];
    var s' := State(Written(s, x), s.txs - {i}, WrittenNumbers(s, x));
    forall j | j in s'.txs ensures TxSound(s'.rows, s'.txs[j]) {
      CommitKeepsOthers(hash, s, i, j);
    }
    if x.op.Queue? || x.op.Activate? || x.op.Complete? || x.op.Retry? {
      NewRowProperties(s, s.txs[i]);
      var row := NewRow(s, x);
      if Busy(row) && x.checked && WillHold(x.op) && SameResources(row, x.op.turn) {
        assert !RowsBusy(s.rows, row) by {
          assert forall b :: b in s.rows ==> Conflicts(s.rows[b], row) == Conflicts(s.rows[b], x.op.turn);
        }
      }
      WriteExclusive(s.rows, x.op.turn.id, row);
    }
    StepLocksExclusive(hash, s, Commit(i), s');
  }

  lemma {:induction false} RecordSound(hash: Hash, s: State, a: Action, s': State)
    requires Sound(hash, s) && a.RecordRun? && Step(hash, s, a, s')
    ensures Sound(hash, s')
  {
    var id := a.turn.id;
    forall j | j in s.txs ensures TxSound(s'.rows, s.txs[j]) {
      if s.txs[j].seen.Some? { TurnRowHeld(s.txs[j]); }
      WriteKeepsTx(s.rows, s.txs[j], id, s'.rows[id]);
    }
    WriteExclusive(s.rows, id, s'.rows[id]);
  }

  /** A step that leaves the rows alone keeps what its transaction relies on. */
  lemma {:induction false} OpenKeepsTx(hash: Hash, s: State, a: Action, s': State, i: nat)
    requires Sound(hash, s) && Disciplined(s, a) && Step(hash, s, a, s') && !a.Commit? && !a.RecordRun? && i in s'.txs
    ensures s'.rows == s.rows && TxSound(s'.rows, s'.txs[i])
  {
    if i in s.txs { assert TxSound(s.rows, s.txs[i]); }
  }

  lemma {:induction false} OpenSound(hash: Hash, s: State, a: Action, s': State)
    requires Sound(hash, s) && Disciplined(s, a) && Step(hash, s, a, s') && !a.Commit? && !a.RecordRun?
    ensures Sound(hash, s')
  {
    StepLocksExclusive(hash, s, a, s');
    forall i | i in s'.txs ensures TxSound(s'.rows, s'.txs[i]) {
      OpenKeepsTx(hash, s, a, s', i);
    }
    assert s'.rows == s.rows;
  }

  lemma {:induction false} StepSound(hash: Hash, s: State, a: Action, s': State)
    requires Sound(hash, s) && Disciplined(s, a) && Step(hash, s, a, s')
    ensures Sound(hash, s')
  {
    if a.Commit? {
      CommitSound(hash, s, a.id);
    } else if a.RecordRun? {
      RecordSound(hash, s, a, s');
    } else {
      OpenSound(hash, s, a, s');
    }
  }

  /** Concurrent mutual exclusion: for any number of interleaved transactions and
      any hash function, no two committed busy turns share a resource. */
  lemma {:induction false} ConcurrentExclusion(hash: Hash, tr: Trace)
    requires Run(hash, tr) && DisciplinedRun(tr)
    ensures Sound(hash, Last(tr)) && RowsExclusive(Last(tr).rows)
  {
    if tr.Then? {
      ConcurrentExclusion(hash, tr.before);
      StepSound(hash, Last(tr.before), tr.action, tr.state);
    }
  }

  // ----- attempts and finished turns -----

  /** What every interleaving keeps, disciplined or not. */
  ghost predicate Fenced(hash: Hash, s: State) {
    && LocksExclusive(hash, s)
    && (forall id :: id in s.rows ==> s.rows[id].id == id)
    && (forall i :: i in s.txs ==> TxFenced(s.rows, s.txs[i]))
  }

  /** A row that one transaction writes is not the row another has read, or is new. */
  lemma {:induction false} ReadersApart(hash: Hash, s: State, i: nat, j: nat)
    requires Fenced(hash, s) && i in s.txs && j in s.txs && i != j && CanCommit(s, s.txs[i])
    requires s.txs[i].op.Queue? || s.txs[i].op.Activate? || s.txs[i].op.Complete? || s.txs[i].op.Retry?
    requires s.txs[j].seen.Some?
    ensures s.txs[i].op.turn.id != s.txs[j].op.turn.id
  {
    var x, y := s.txs[i], s.txs[j];
    assert TxFenced(s.rows, y);
    if !x.op.Queue? {
      TurnRowHeld(x);
      assert Apart(hash, x, y);
      NeverBoth(hash, x, y, TurnRow(x.op.turn.id));
      TurnRowHeld(y);
    }
  }

  lemma {:induction false} CommitKeepsFence(hash: Hash, s: State, i: nat, j: nat)
    requires Fenced(hash, s) && i in s.txs && j in s.txs && i != j && CanCommit(s, s.txs[i])
    ensures TxFenced(Written(s, s.txs[i]), s.txs[j])
  {
    var x := s.txs[i];
    assert TxFenced(s.rows, s.txs[j]);
    if s.txs[j].seen.Some? && (x.op.Queue? || x.op.Activate? || x.op.Complete? || x.op.Retry?) {
      ReadersApart(hash, s, i, j);
    }
  }

  lemma {:induction false} CommitFenced(hash: Hash, s: State, i: nat)
    requires Fenced(hash, s) && i in s.txs && CanCommit(s, s.txs[i])
    ensures Fenced(hash, State(Written(s, s.txs[i]), s.txs - {i}, WrittenNumbers(s, s.txs[i])))
  {
    var s' := State(Written(s, s.txs[i]), s.txs - {i}, WrittenNumbers(s, s.txs[i]));
    assert TxFenced(s.rows, s.txs[i]);
    forall j | j in s'.txs ensures TxFenced(s'.rows, s'.txs[j]) {
      CommitKeepsFence(hash, s, i, j);
    }
    StepLocksExclusive(hash, s, Commit(i), s');
  }

  lemma {:induction false} RecordFenced(hash: Hash, s: State, a: Action, s': State)
    requires Fenced(hash, s) && a.RecordRun? && Step(hash, s, a, s')
    ensures Fenced(hash, s')
  {
    forall j | j in s'.txs ensures TxFenced(s'.rows, s'.txs[j]) {
      assert TxFenced(s.rows, s.txs[j]);
      if s.txs[j].seen.Some? { TurnRowHeld(s.txs[j]); }
    }
  }

  lemma {:induction false} OpenFenced(hash: Hash, s: State, a: Action, s': State)
    requires Fenced(hash, s) && Step(hash, s, a, s') && !a.Commit? && !a.RecordRun?
    ensures Fenced(hash, s')
  {
    StepLocksExclusive(hash, s, a, s');
    forall j | j in s'.txs ensures TxFenced(s'.rows, s'.txs[j]) {
      if j in s.txs { assert TxFenced(s.rows, s.txs[j]); }
    }
  }

  lemma {:induction false} RunFenced(hash: Hash, tr: Trace)
    requires Run(hash, tr)
    ensures Fenced(hash, Last(tr))
  {
    if tr.Then? {
      RunFenced(hash, tr.before);
      if tr.action.Commit? {
        CommitFenced(hash, Last(tr.before), tr.action.id);
      } else if tr.action.RecordRun? {
        RecordFenced(hash, Last(tr.before), tr.action, tr.state);
      } else {
        OpenFenced(hash, Last(tr.before), tr.action, tr.state);
      }
    }
  }

  /** Row locks fence attempts: whenever a completion or a retry can commit, in any run,
      the stored turn is still unfinished and is still the attempt the caller saw. */
  lemma {:induction false} ConcurrentFencing(hash: Hash, tr: Trace, i: nat)
    requires Run(hash, tr)
    requires i in Last(tr).txs && CanCommit(Last(tr), Last(tr).txs[i])
    requires Last(tr).txs[i].op.Complete? || Last(tr).txs[i].op.Retry?
    ensures
      var rows, t := Last(tr).rows, Last(tr).txs[i].op.turn;
      t.id in rows && Active(rows[t.id]) && SameTurnAttempt(rows[t.id], t)
  {
    RunFenced(hash, tr);
    assert TxFenced(Last(tr).rows, Last(tr).txs[i]);
  }

  predicate RevivedBy(s: State, a: Action, id: string) {
    a.Commit? && a.id in s.txs && s.txs[a.id].op.Activate? && s.txs[a.id].op.turn.id == id
  }

  lemma FinishedCommit(s: State, i: nat, id: string)
    requires i in s.txs && TxFenced(s.rows, s.txs[i]) && CanCommit(s, s.txs[i])
    requires id in s.rows && !Active(s.rows[id])
    ensures var rows := Written(s, s.txs[i]);
      id in rows && (rows[id] == s.rows[id] <==> !RevivedBy(s, Commit(i), id))
  {
  }

  /** In every run a finished turn is left alone by every step except one: the activation
      reads the status without a row lock and updates by ID, so it revives a turn that
      was finished between its check and its commit. */
  lemma {:induction false} FinishedTurns(hash: Hash, tr: Trace, a: Action, s': State, id: string)
    requires Run(hash, tr) && Step(hash, Last(tr), a, s')
    requires id in Last(tr).rows && !Active(Last(tr).rows[id])
    ensures id in s'.rows
    ensures s'.rows[id] == Last(tr).rows[id] <==> !RevivedBy(Last(tr), a, id)
  {
    RunFenced(hash, tr);
    if a.Commit? {
      FinishedCommit(Last(tr), a.id, id);
    }
  }

  // ----- deadlock freedom -----

  /** A transaction that has to wait for another one. */
  ghost predicate Waits(hash: Hash, s: State, i: nat)
    requires i in s.txs
  {
    var tx := s.txs[i];
    tx.got < |Plan(tx.op)| && !LockFree(hash, s, i, Plan(tx.op)[tx.got])
  }

  /** Advisory locks come first in the order of their names, then thread rows, then turn rows. */
  predicate LockLe(a: Lock, b: Lock) {
    match (a, b)
    case (Advisory(m), Advisory(n)) => LexLe(m, n)
    case (Advisory(_), _) => true
    case (ThreadRow(m), ThreadRow(n)) => LexLe(m, n)
    case (ThreadRow(_), TurnRow(_)) => true
    case (TurnRow(m), TurnRow(n)) => LexLe(m, n)
    case _ => false
  }

  lemma LockTotal(a: Lock, b: Lock)
    ensures LockLe(a, b) || LockLe(b, a)
  {
    match (a, b)
    case (Advisory(m), Advisory(n)) => LexTotal(m, n);
    case (ThreadRow(m), ThreadRow(n)) => LexTotal(m, n);
    case (TurnRow(m), TurnRow(n)) => LexTotal(m, n);
    case _ =>
  }

  lemma LockAntisymmetric(a: Lock, b: Lock)
    requires LockLe(a, b) && LockLe(b, a)
    ensures a == b
  {
    match (a, b)
    case (Advisory(m), Advisory(n)) => LexAntisymmetric(m, n);
    case (ThreadRow(m), ThreadRow(n)) => LexAntisymmetric(m, n);
    case (TurnRow(m), TurnRow(n)) => LexAntisymmetric(m, n);
  }

  lemma LockTransitive(a: Lock, b: Lock, c: Lock)
    requires LockLe(a, b) && LockLe(b, c)
    ensures LockLe(a, c)
  {
    match (a, b, c)
    case (Advisory(m), Advisory(n), Advisory(o)) => LexTransitive(m, n, o);
    case (ThreadRow(m), ThreadRow(n), ThreadRow(o)) => LexTransitive(m, n, o);
    case (TurnRow(m), TurnRow(n), TurnRow(o)) => LexTransitive(m, n, o);
    case _ =>
  }

  /** Every transaction takes its locks in that order. */
  lemma PlanOrdered(op: Op, i: nat, j: nat)
    requires i < j < |Plan(op)|
    ensures LockLe(Plan(op)[i], Plan(op)[j])
  {
    if (op.Queue? || op.Activate?) && j < |Plan(op)| - 1 {
      var t := op.turn;
      var keys := ["profile:" + t.profile] + t.lockKeys;
      SortStringsSorted(keys);
      LexPrefix(t.namespace + "/", ResourceKeys(t)[i], ResourceKeys(t)[j]);
      assert t.namespace + "/" + ResourceKeys(t)[i] == (t.namespace + "/") + ResourceKeys(t)[i];
    }
  }

  function Wanted(s: State, i: nat): Lock
    requires i in s.txs && s.txs[i].got < |Plan(s.txs[i].op)|
  {
    Plan(s.txs[i].op)[s.txs[i].got]
  }

  /** Among waiting transactions, one wants a greatest lock. */
  lemma {:induction false} GreatestWanted(s: State, ids: set<nat>) returns (top: nat)
    requires ids != {} && ids <= s.txs.Keys
    requires forall i :: i in ids ==> s.txs[i].got < |Plan(s.txs[i].op)|
    ensures top in ids && forall i :: i in ids ==> LockLe(Wanted(s, i), Wanted(s, top))
  {
    var i :| i in ids;
    LockTotal(Wanted(s, i), Wanted(s, i));
    if ids == {i} {
      top := i;
    } else {
      var rest := ids - {i};
      assert ids == rest + {i};
      var best := GreatestWanted(s, rest);
      LockTotal(Wanted(s, i), Wanted(s, best));
      if LockLe(Wanted(s, i), Wanted(s, best)) {
        top := best;
      } else {
        top := i;
        forall j | j in rest ensures LockLe(Wanted(s, j), Wanted(s, i)) {
          LockTransitive(Wanted(s, j), Wanted(s, best), Wanted(s, i));
        }
      }
    }
  }

  /** No two names that the transactions in progress lock have the same hash. */
  ghost predicate NoCollision(hash: Hash, s: State) {
    forall i, j, a, b :: i in s.txs && j in s.txs && a in Plan(s.txs[i].op) && b in Plan(s.txs[j].op) && Clash(hash, a, b) ==>
      a == b
  }

  /** Whoever keeps a transaction waiting holds the lock it wants. */
  lemma {:induction false} Blocker(hash: Hash, s: State, i: nat) returns (j: nat)
    requires NoCollision(hash, s) && i in s.txs && Waits(hash, s, i)
    ensures j in s.txs && j != i && Wanted(s, i) in Held(s.txs[j])
  {
    var lock := Wanted(s, i);
    j :| j in s.txs && j != i && !Avoids(hash, lock, s.txs[j]);
    var tx := s.txs[j];
    assert !(forall b :: b in Held(tx) ==> !Clash(hash, lock, b));
    var b :| b in Held(tx) && Clash(hash, lock, b);
    assert lock in Plan(s.txs[i].op) && b in Plan(tx.op);
  }

  /** A transaction that blocks another one wants a greater lock, if it waits too. */
  lemma {:induction false} BlockerWantsMore(hash: Hash, s: State, i: nat, j: nat)
    requires LocksExclusive(hash, s) && i in s.txs && j in s.txs && Waits(hash, s, i) && Waits(hash, s, j)
    requires Wanted(s, i) in Held(s.txs[j])
    ensures LockLe(Wanted(s, i), Wanted(s, j)) && Wanted(s, i) != Wanted(s, j)
  {
    var y := s.txs[j];
    var b := Wanted(s, i);
    var at :| 0 <= at < |Held(y)| && Held(y)[at] == b;
    PlanOrdered(y.op, at, y.got);
    forall k | k in s.txs && k != j ensures Avoids(hash, b, s.txs[k]) {
      assert Apart(hash, y, s.txs[k]);
    }
  }

  ghost predicate AllWait(hash: Hash, s: State) {
    forall i {:trigger Waits(hash, s, i)} :: i in s.txs ==> Waits(hash, s, i)
  }

  lemma NotAllWait(hash: Hash, s: State, some: nat)
    requires LocksExclusive(hash, s) && NoCollision(hash, s) && some in s.txs
    ensures !AllWait(hash, s)
  {
    if AllWait(hash, s) {
      forall i | i in s.txs ensures s.txs[i].got < |Plan(s.txs[i].op)| {
        assert Waits(hash, s, i);
      }
      var top := GreatestWanted(s, s.txs.Keys);
      assert Waits(hash, s, top);
      var j := Blocker(hash, s, top);
      assert Waits(hash, s, j);
      BlockerWantsMore(hash, s, top, j);
      LockAntisymmetric(Wanted(s, top), Wanted(s, j));
    }
  }

  /** Deadlock freedom: in every reachable state with transactions in progress, if no
      two names they lock collide, one of them need not wait. */
  lemma {:induction false} DeadlockFree(hash: Hash, tr: Trace)
    requires Run(hash, tr) && NoCollision(hash, Last(tr)) && Last(tr).txs.Keys != {}
    ensures exists i :: i in Last(tr).txs && !Waits(hash, Last(tr), i)
  {
    RunLocksExclusive(hash, tr);
    var some :| some in Last(tr).txs;
    NotAllWait(hash, Last(tr), some);
  }

  function First(op: Op): Tx {
    Tx(op, 1, false, None, None)
  }

  function Pair(x: Tx, y: Tx): State {
    State(map[], map[0 := x, 1 := y], map[])
  }

  lemma {:induction false} BothBegin(hash: Hash, p: Op, q: Op) returns (tr: Trace)
    ensures Run(hash, tr) && Last(tr) == Pair(NewTx(p), NewTx(q))
  {
    var one := Then(Start, Begin(0, p), State(map[], map[][0 := NewTx(p)], map[]));
    assert Step(hash, Last(Start), one.action, one.state);
    tr := Then(one, Begin(1, q), State(map[], one.state.txs[1 := NewTx(q)], map[]));
    assert Run(hash, one);
  }

  lemma TakeFirst(hash: Hash, s: State, i: nat, j: nat, op: Op)
    requires s.txs.Keys == {i, j} && i != j && s.txs[i] == NewTx(op) && op.Queue? && |Plan(op)| > 1
    requires Avoids(hash, Plan(op)[0], s.txs[j])
    ensures Step(hash, s, Acquire(i), s.(txs := s.txs[i := First(op)]))
  {
  }

  lemma Blocks(hash: Hash, s: State, i: nat, j: nat)
    requires i in s.txs && j in s.txs && i != j && s.txs[i].got == 1 && s.txs[j].got == 1
    requires |Plan(s.txs[i].op)| > 1 && |Plan(s.txs[j].op)| > 1
    requires Clash(hash, Plan(s.txs[i].op)[1], Plan(s.txs[j].op)[0])
    ensures Waits(hash, s, i)
  {
  }

  lemma FirstTakes(hash: Hash, p: Op, q: Op) returns (tr: Trace)
    requires p.Queue? && |Plan(p)| > 1
    ensures Run(hash, tr) && Last(tr) == Pair(First(p), NewTx(q))
  {
    var begun := BothBegin(hash, p, q);
    assert Held(NewTx(q)) == [];
    TakeFirst(hash, Last(begun), 0, 1, p);
    tr := Then(begun, Acquire(0), Last(begun).(txs := Last(begun).txs[0 := First(p)]));
    assert Last(tr).txs == map[0 := First(p), 1 := NewTx(q)];
  }

  lemma {:induction false} BothTake(hash: Hash, p: Op, q: Op) returns (tr: Trace)
    requires p.Queue? && q.Queue? && |Plan(p)| > 1 && |Plan(q)| > 1 && !Clash(hash, Plan(q)[0], Plan(p)[0])
    ensures Run(hash, tr) && Last(tr) == Pair(First(p), First(q))
  {
    var half := FirstTakes(hash, p, q);
    assert Held(First(p)) == [Plan(p)[0]];
    TakeFirst(hash, Last(half), 1, 0, q);
    tr := Then(half, Acquire(1), Last(half).(txs := Last(half).txs[1 := First(q)]));
    assert Last(tr).txs == map[0 := First(p), 1 := First(q)];
  }

  ghost predicate Cyclic(hash: Hash, p: Op, q: Op) {
    && p.Queue? && q.Queue? && |Plan(p)| > 1 && |Plan(q)| > 1
    && Plan(p)[1] == Plan(q)[0] && Clash(hash, Plan(q)[1], Plan(p)[0]) && !Clash(hash, Plan(q)[0], Plan(p)[0])
  }

  /** Two queuing transactions whose first two locks form a cycle reach a state in
      which both wait. */
  lemma {:induction false} CyclicPlans(hash: Hash, p: Op, q: Op) returns (tr: Trace)
    requires Cyclic(hash, p, q)
    ensures Run(hash, tr) && Last(tr) == Pair(First(p), First(q)) && AllWait(hash, Last(tr))
  {
    tr := BothTake(hash, p, q);
    Blocks(hash, Pair(First(p), First(q)), 0, 1);
    Blocks(hash, Pair(First(p), First(q)), 1, 0);
  }

  function SampleTurn(profile: string, k0: string, k1: string): Turn {
    Turn("x", "n", "thread", "request", profile, [k0, k1], false, None,
         "run", "", "{}", Queued, "", [], "message", 1, 0, None, "", [])
  }

  /** A hash of the last letter only, under which names ending in a and c collide. */
  function Colliding(name: string): int {
    if name != "" && name[|name| - 1] == 'b' then 2 else 1
  }

  lemma LessNotLe(a: string, b: string)
    requires LexLess(a, b)
    ensures !LexLe(b, a)
  {
  }

  lemma InsertLast(p: string, k0: string, k1: string)
    requires !LexLe(p, k0) && !LexLe(p, k1)
    ensures Insert(p, [k0, k1]) == [k0, k1, p]
  {
    assert [k0, k1][1..] == [k1] && [k1][1..] == [];
    assert Insert(p, [k1]) == [k1] + Insert(p, []);
  }

  lemma SampleOrder(profile: string, k0: string, k1: string)
    requires LexLess(k0, k1) && LexLess(k1, "profile:" + profile) && LexLess(k0, "profile:" + profile)
    ensures ResourceKeys(SampleTurn(profile, k0, k1)) == [k0, k1, "profile:" + profile]
  {
    var p := "profile:" + profile;
    assert ([p] + [k0, k1])[1..] == [k0, k1] && [k0, k1][1..] == [k1] && [k1][1..] == [];
    assert SortStrings([k1]) == [k1];
    assert SortStrings([k0, k1]) == [k0, k1];
    LessNotLe(k0, p);
    LessNotLe(k1, p);
    InsertLast(p, k0, k1);
  }

  lemma SampleLocks(profile: string, k0: string, k1: string)
    requires LexLess(k0, k1) && LexLess(k1, "profile:" + profile) && LexLess(k0, "profile:" + profile)
    ensures
      var plan := Plan(Queue(SampleTurn(profile, k0, k1)));
      |plan| > 1 && plan[0] == Advisory("n" + "/" + k0) && plan[1] == Advisory("n" + "/" + k1)
  {
    SampleOrder(profile, k0, k1);
  }

  lemma SampleNames()
    ensures
      var a, b, c := "n" + "/" + "a", "n" + "/" + "b", "n" + "/" + "c";
      a != b && b != c && Colliding(a) == Colliding(c) != Colliding(b)
  {
    var a, b, c := "n" + "/" + "a", "n" + "/" + "b", "n" + "/" + "c";
    assert a[|a| - 1] == 'a' && b[|b| - 1] == 'b' && c[|c| - 1] == 'c';
  }

  lemma SampleCycle()
    ensures Cyclic(Colliding, Queue(SampleTurn("m", "a", "b")), Queue(SampleTurn("m", "b", "c")))
  {
    SampleLocks("m", "a", "b");
    SampleLocks("m", "b", "c");
    SampleNames();
  }

  /** Without that assumption the order of names is no order of locks: transactions
      over the keys a, b and b, c deadlock when the names of a and c collide. */
  lemma {:induction false} CollisionDeadlock() returns (tr: Trace)
    ensures
      var p, q := Queue(SampleTurn("m", "a", "b")), Queue(SampleTurn("m", "b", "c"));
      Run(Colliding, tr) && Last(tr) == Pair(First(p), First(q)) && AllWait(Colliding, Last(tr))
  {
    var p, q := Queue(SampleTurn("m", "a", "b")), Queue(SampleTurn("m", "b", "c"));
    SampleCycle();
    tr := CyclicPlans(Colliding, p, q);
  }
}
