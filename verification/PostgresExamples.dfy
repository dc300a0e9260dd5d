/** Runs of the concurrent store in which an activation revives a finished turn. */
module PostgresExamples {
  import opened Strings
  import opened ChatTypes
  import opened PostgresTurns
  import opened PostgresTheorems
  import opened PostgresThreads

  const WAITING :=
    Turn("t", "n", "thread", "request", "p", [], true, None, "run", "", "{}", Waiting, "", [], "message", 1, 0, None, "", [])

  const FINISHED := WAITING.(status := ChatTypes.Finished("succeeded"))

  const KEY := "profile:" + WAITING.profile

  const PROFILE := Advisory(WAITING.namespace + "/" + KEY)

  lemma Plans()
    ensures Plan(Queue(WAITING)) == [PROFILE, ThreadRow("thread")]
    ensures Plan(Activate(WAITING)) == [PROFILE, TurnRow("t")]
    ensures Plan(Complete(FINISHED)) == [ThreadRow("thread"), TurnRow("t")]
  {
    assert [KEY] + WAITING.lockKeys == [KEY];
    assert SortStrings([KEY]) == [KEY];
  }

  /** One step more. */
  lemma {:induction false} Extend(hash: Hash, tr: Trace, a: Action, s: State) returns (longer: Trace)
    requires Run(hash, tr) && DisciplinedRun(tr) && Step(hash, Last(tr), a, s) && Disciplined(Last(tr), a)
    ensures Run(hash, longer) && DisciplinedRun(longer) && Last(longer) == s
  {
    longer := Then(tr, a, s);
  }

  /** Taking a lock that nobody else has. */
  lemma {:induction false} Take(hash: Hash, tr: Trace, i: nat) returns (longer: Trace)
    requires Run(hash, tr) && DisciplinedRun(tr) && i in Last(tr).txs
    requires var tx := Last(tr).txs[i];
      && tx.got < |Plan(tx.op)| && (tx.op.Activate? && tx.got == |Plan(tx.op)| - 1 ==> tx.checked)
      && LockFree(hash, Last(tr), i, Plan(tx.op)[tx.got])
    ensures Run(hash, longer) && DisciplinedRun(longer)
    ensures Last(longer) == Last(tr).(txs := Last(tr).txs[i := Last(tr).txs[i].(got := Last(tr).txs[i].got + 1)])
  {
    var tx := Last(tr).txs[i];
    longer := Extend(hash, tr, Acquire(i), Last(tr).(txs := Last(tr).txs[i := tx.(got := tx.got + 1)]));
  }

  /** A queuing transaction with all its locks makes its checks. */
  lemma {:induction false} NumberedRun(hash: Hash, tr: Trace, i: nat, number: int) returns (longer: Trace)
    requires Run(hash, tr) && DisciplinedRun(tr) && i in Last(tr).txs
    requires var (s, tx) := (Last(tr), Last(tr).txs[i]);
      && tx.op.Queue? && tx == Tx(tx.op, |Plan(tx.op)|, false, None, None) && CheckPasses(s, tx)
      && tx.op.turn.expectedSequence.None? && number == Highest(Numbers(s, tx.op.turn.threadId)) + 1
    ensures Run(hash, longer) && DisciplinedRun(longer)
    ensures Last(longer) == Last(tr).(txs := Last(tr).txs[i := Last(tr).txs[i].(checked := true, number := Some(number))])
  {
    var (s, tx) := (Last(tr), Last(tr).txs[i]);
    longer := Extend(hash, tr, Check(i), s.(txs := s.txs[i := tx.(checked := true)]));
    var numbered := tx.(checked := true, number := Some(number));
    assert Last(longer).txs[i := numbered] == s.txs[i := numbered];
    longer := Extend(hash, longer, Number(i), s.(txs := s.txs[i := numbered]));
  }

  /** It goes on to its commit. */
  lemma {:induction false} QueuedRun(hash: Hash, tr: Trace, i: nat, number: int) returns (longer: Trace)
    requires Run(hash, tr) && DisciplinedRun(tr) && i in Last(tr).txs
    requires var (s, tx) := (Last(tr), Last(tr).txs[i]);
      && tx.op.Queue? && tx == Tx(tx.op, |Plan(tx.op)|, false, None, None) && CheckPasses(s, tx)
      && tx.op.turn.expectedSequence.None? && number == Highest(Numbers(s, tx.op.turn.threadId)) + 1
      && tx.op.turn.id !in s.rows && tx.op.turn.deferred && tx.op.turn.status == Waiting
    ensures Run(hash, longer) && DisciplinedRun(longer)
    ensures var (s, t) := (Last(tr), Last(tr).txs[i].op.turn);
      Last(longer) == State(
        s.rows[t.id := t], s.txs - {i}, s.numbers[t.threadId := Numbers(s, t.threadId) + [number]])
  {
    var (s, tx) := (Last(tr), Last(tr).txs[i]);
    longer := NumberedRun(hash, tr, i, number);
    var numbered := tx.(checked := true, number := Some(number));
    var s' := s.(txs := s.txs[i := numbered]);
    assert s'.txs - {i} == s.txs - {i};
    assert seq(1, k => number + k) == [number];
    longer := Extend(hash, longer, Commit(i), State(Written(s', numbered), s.txs - {i}, WrittenNumbers(s', numbered)));
  }

  /** A deferred turn is queued. */
  lemma {:induction false} Deferred(hash: Hash) returns (tr: Trace)
    ensures Run(hash, tr) && DisciplinedRun(tr)
    ensures Last(tr) == State(map["t" := WAITING], map[], map["thread" := [1]])
  {
    Plans();
    var op := Queue(WAITING);
    tr := Extend(hash, Start, Begin(0, op), State(map[], map[0 := NewTx(op)], map[]));
    tr := Take(hash, tr, 0);
    tr := Take(hash, tr, 0);
    var s := Last(tr);
    assert s.txs == map[0 := Tx(op, 2, false, None, None)] && s.txs - {0} == map[];
    tr := QueuedRun(hash, tr, 0, 1);
    assert [] + [1] == [1];
  }

  const CHECKED := Tx(Activate(WAITING), 1, true, None, None)

  /** An activation has found the turn waiting and its resources free. */
  lemma {:induction false} Checked(hash: Hash) returns (tr: Trace)
    ensures Run(hash, tr) && DisciplinedRun(tr)
    ensures Last(tr) == State(map["t" := WAITING], map[1 := CHECKED], map["thread" := [1]])
  {
    Plans();
    var op := Activate(WAITING);
    tr := Deferred(hash);
    var s := Last(tr);
    tr := Extend(hash, tr, Begin(1, op), s.(txs := map[1 := NewTx(op)]));
    tr := Take(hash, tr, 1);
    assert Last(tr).txs == map[1 := Tx(op, 1, false, None, None)];
    tr := Extend(hash, tr, Check(1), s.(txs := map[1 := CHECKED]));
  }

  const COMPLETING := Tx(Complete(FINISHED), 2, false, None, None)

  /** Beside another transaction one takes a lock. */
  lemma {:induction false} TakeBeside(hash: Hash, tr: Trace, other: Tx, i: nat, tx: Tx) returns (longer: Trace)
    requires Run(hash, tr) && DisciplinedRun(tr) && i != 1 && Last(tr).txs == map[1 := other][i := tx]
    requires !tx.op.Activate? && tx.got < |Plan(tx.op)| && Avoids(hash, Plan(tx.op)[tx.got], other)
    ensures Run(hash, longer) && DisciplinedRun(longer)
    ensures Last(longer) == Last(tr).(txs := map[1 := other][i := tx.(got := tx.got + 1)])
  {
    BesideFree(hash, Last(tr), other, i, Plan(tx.op)[tx.got]);
    assert Last(tr).txs[i] == tx;
    longer := Take(hash, tr, i);
    Replaced(map[1 := other], i, tx, tx.(got := tx.got + 1));
  }

  lemma BesideFree(hash: Hash, s: State, other: Tx, i: nat, lock: Lock)
    requires s.txs.Keys == {1, i} && s.txs[1] == other && i != 1 && Avoids(hash, lock, other)
    ensures LockFree(hash, s, i, lock)
  {
  }

  lemma Replaced(txs: map<nat, Tx>, i: nat, tx: Tx, next: Tx)
    ensures txs[i := tx][i := next] == txs[i := next]
  {
  }

  /** It begins and takes two. */
  lemma {:induction false} TakeBoth(hash: Hash, tr: Trace, other: Tx, i: nat, op: Op) returns (longer: Trace)
    requires Run(hash, tr) && DisciplinedRun(tr) && Last(tr).txs == map[1 := other] && i != 1
    requires !op.Activate? && |Plan(op)| == 2
    requires Avoids(hash, Plan(op)[0], other) && Avoids(hash, Plan(op)[1], other)
    ensures Run(hash, longer) && DisciplinedRun(longer)
    ensures Last(longer) == Last(tr).(txs := map[1 := other][i := Tx(op, 2, false, None, None)])
  {
    longer := Extend(hash, tr, Begin(i, op), Last(tr).(txs := map[1 := other][i := NewTx(op)]));
    longer := TakeBeside(hash, longer, other, i, NewTx(op));
    longer := TakeBeside(hash, longer, other, i, Tx(op, 1, false, None, None));
  }

  /** A completion of the turn takes its row locks beside it. */
  lemma {:induction false} Locked(hash: Hash) returns (tr: Trace)
    ensures Run(hash, tr) && DisciplinedRun(tr)
    ensures Last(tr) == State(map["t" := WAITING], map[1 := CHECKED, 2 := COMPLETING], map["thread" := [1]])
  {
    Plans();
    var op := Complete(FINISHED);
    tr := Checked(hash);
    assert Held(CHECKED) == [PROFILE];
    tr := TakeBoth(hash, tr, CHECKED, 2, op);
    assert map[1 := CHECKED][2 := COMPLETING] == map[1 := CHECKED, 2 := COMPLETING];
  }

  /** It reads the turn and numbers its message. */
  lemma {:induction false} Closing(hash: Hash) returns (tr: Trace)
    ensures Run(hash, tr) && DisciplinedRun(tr)
    ensures Last(tr) == State(
      map["t" := WAITING], map[1 := CHECKED, 2 := COMPLETING.(seen := Some(WAITING), number := Some(2))], map["thread" := [1]])
  {
    Plans();
    var seen := COMPLETING.(seen := Some(WAITING));
    tr := Locked(hash);
    var s := Last(tr);
    tr := Extend(hash, tr, Read(2), s.(txs := map[1 := CHECKED, 2 := seen]));
    assert [1][..0] == [] && Highest([1]) == 1;
    tr := Extend(hash, tr, Number(2), s.(txs := map[1 := CHECKED, 2 := seen.(number := Some(2))]));
  }

  /** It finishes the turn while the activation is still open. */
  lemma {:induction false} Completed(hash: Hash) returns (tr: Trace)
    ensures Run(hash, tr) && DisciplinedRun(tr)
    ensures Last(tr) == State(map["t" := FINISHED], map[1 := CHECKED], map["thread" := [1, 2]])
  {
    Plans();
    tr := Closing(hash);
    var s := Last(tr);
    assert s.txs - {2} == map[1 := CHECKED];
    assert [1] + seq(1, k => 2 + k) == [1, 2];
    tr := Extend(hash, tr, Commit(2), State(map["t" := FINISHED], map[1 := CHECKED], map["thread" := [1, 2]]));
  }

  /** The open activation commits. */
  lemma {:induction false} Revived(hash: Hash, tr: Trace) returns (longer: Trace)
    requires Run(hash, tr) && DisciplinedRun(tr) && Last(tr).txs == map[1 := CHECKED]
    requires "t" in Last(tr).rows && Last(tr).rows["t"] == FINISHED
    ensures Run(hash, longer) && DisciplinedRun(longer) && longer.Then?
    ensures Last(longer.before).rows == Last(tr).rows && RevivedBy(Last(longer.before), longer.action, "t")
    ensures Last(longer).rows == Last(tr).rows["t" := FINISHED.(status := Queued)]
  {
    Plans();
    var s := Last(tr);
    longer := Take(hash, tr, 1);
    var ready := CHECKED.(got := 2);
    assert Last(longer) == s.(txs := map[1 := ready]);
    assert map[1 := ready] - {1} == map[];
    longer := Then(longer, Commit(1), State(s.rows["t" := FINISHED.(status := Queued)], map[], s.numbers));
  }

  /** Whatever the hash function, a run of disciplined callers exists in which an
      activation commits after the turn was finished and sets it back to queued. */
  lemma {:induction false} ActivationRevives(hash: Hash) returns (tr: Trace)
    ensures Run(hash, tr) && DisciplinedRun(tr) && tr.Then?
    ensures Last(tr.before).rows == map["t" := FINISHED] && RevivedBy(Last(tr.before), tr.action, "t")
    ensures Last(tr).rows == map["t" := FINISHED.(status := Queued)]
  {
    tr := Completed(hash);
    tr := Revived(hash, tr);
  }

  // ----- two turns on one thread -----

  const NEXT := WAITING.(id := "u", requestId := "other", profile := "q")

  const NEXT_KEY := "profile:" + NEXT.profile

  const NEXT_PROFILE := Advisory(NEXT.namespace + "/" + NEXT_KEY)

  lemma NextPlan()
    ensures Plan(Queue(NEXT)) == [NEXT_PROFILE, ThreadRow("thread")]
  {
    assert [NEXT_KEY] + NEXT.lockKeys == [NEXT_KEY];
    assert SortStrings([NEXT_KEY]) == [NEXT_KEY];
  }

  /** A deferred turn of another agent takes its locks on the thread. */
  lemma {:induction false} NextLocked(hash: Hash) returns (tr: Trace)
    requires hash(PROFILE.name) != hash(NEXT_PROFILE.name)
    ensures Run(hash, tr) && DisciplinedRun(tr)
    ensures Last(tr) == State(
      map["t" := FINISHED], map[1 := CHECKED, 3 := Tx(Queue(NEXT), 2, false, None, None)], map["thread" := [1, 2]])
  {
    Plans();
    NextPlan();
    tr := Completed(hash);
    assert Held(CHECKED) == [PROFILE];
    tr := TakeBoth(hash, tr, CHECKED, 3, Queue(NEXT));
    var locked := Tx(Queue(NEXT), 2, false, None, None);
    assert map[1 := CHECKED][3 := locked] == map[1 := CHECKED, 3 := locked];
  }

  /** It is queued on the free thread while the activation is still open. */
  lemma {:induction false} NextQueued(hash: Hash) returns (tr: Trace)
    requires hash(PROFILE.name) != hash(NEXT_PROFILE.name)
    ensures Run(hash, tr) && DisciplinedRun(tr)
    ensures Last(tr).rows == map["t" := FINISHED, "u" := NEXT] && Last(tr).txs == map[1 := CHECKED]
  {
    NextPlan();
    tr := NextLocked(hash);
    assert Last(tr).txs - {3} == map[1 := CHECKED];
    assert [1, 2][..1] == [1] && [1][..0] == [] && Highest([1]) == 1 && Highest([1, 2]) == 2;
    assert WAITING.requestId != NEXT.requestId;
    tr := QueuedRun(hash, tr, 3, 3);
  }

  /** For every hash function that tells the two agents apart, a run of disciplined
      callers exists in which the revived turn and a later one share their thread. */
  lemma {:induction false} RevivalDoublesThread(hash: Hash) returns (tr: Trace)
    requires hash(PROFILE.name) != hash(NEXT_PROFILE.name)
    ensures Run(hash, tr) && DisciplinedRun(tr) && !OnePerThread(Last(tr).rows)
  {
    tr := NextQueued(hash);
    tr := Revived(hash, tr);
    var rows := Last(tr).rows;
    assert Active(rows["t"]) && Active(rows["u"]) && KeyOf(rows["t"]) == KeyOf(rows["u"]);
  }
}
