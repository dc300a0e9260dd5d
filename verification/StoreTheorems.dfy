/** What every run of the chat store keeps: exclusive turns, a numbered and fully
    accounted transcript, idempotent requests, fenced attempts, and one standing
    conversation per agent. */
module StoreTheorems {
  import opened Strings
  import opened ChatTypes
  import opened StoreSpec
  import opened StoreRuns

  // ----- mutual exclusion -----

  /** At most one unfinished turn per thread, and no two busy turns of one
      namespace share a profile or a lock key. */
  ghost predicate Exclusive(s: Store) {
    && (forall a, b :: a in s.turns && b in s.turns && a != b && KeyOf(s.turns[a]) == KeyOf(s.turns[b]) ==>
          !(Active(s.turns[a]) && Active(s.turns[b])))
    && (forall a, b :: a in s.turns && b in s.turns && a != b && Busy(s.turns[a]) && Busy(s.turns[b]) ==>
          !Conflicts(s.turns[a], s.turns[b]))
  }

  /** A retry that takes effect finds its turn busy already, or finds none of its
      resources busy. */
  ghost predicate RetrySafe(s: Store, op: Op) {
    op.RetryOp? && RetryTurn(s, op.expected, op.retry, op.now).1.Ok? ==>
      Busy(s.turns[op.expected.id]) || !ResourcesBusy(s, s.turns[op.expected.id])
  }

  lemma AcceptExclusive(s: Store, t: Turn, m: Message)
    requires Exclusive(s) && KeyOf(t) in s.threads && !Blocked(s, t)
    requires t.deferred ==> t.status == Waiting
    ensures Exclusive(Accept(s, t, m).0)
  {
  }

  /** Replacing a turn keeps exclusion if it kept its thread and resources, was
      unfinished, and either was busy before or finds its resources free. */
  lemma ReplaceExclusive(s: Store, id: string, t: Turn)
    requires Exclusive(s) && id in s.turns && Active(s.turns[id])
    requires KeyOf(t) == KeyOf(s.turns[id]) && t.profile == s.turns[id].profile && t.lockKeys == s.turns[id].lockKeys
    requires Busy(t) ==> Busy(s.turns[id]) || !ResourcesBusy(s, s.turns[id])
    ensures Exclusive(s.(turns := s.turns[id := t]))
  {
  }

  lemma {:induction false} UpdateExclusive(s: Store, op: Op, s': Store, id: string)
    requires WellFormed(s) && Exclusive(s) && Updates(s, op, s', id) && RetrySafe(s, op)
    ensures Exclusive(s')
  {
    ReplaceExclusive(s, id, s'.turns[id]);
    assert s.(turns := s.turns[id := s'.turns[id]]).turns == s'.turns;
  }

  lemma {:induction false} ChangeExclusive(s: Store, op: Op, s': Store)
    requires WellFormed(s) && Exclusive(s) && Changes(s, op, s') && RetrySafe(s, op)
    ensures Exclusive(s')
  {
    if s'.turns == s.turns {
    } else if Accepts(s, op, s') {
      AcceptExclusive(s, Prepared(op).value.0, Prepared(op).value.1);
    } else {
      var id :| Updates(s, op, s', id);
      UpdateExclusive(s, op, s', id);
    }
  }

  lemma {:induction false} StepExclusive(s: Store, op: Op, s': Store)
    requires WellFormed(s) && Exclusive(s) && Step(s, op, s') && RetrySafe(s, op)
    ensures Exclusive(s')
  {
    TurnEffect(s, op, s');
    ChangeExclusive(s, op, s');
  }

  /** An unsafe retry puts two busy turns on one resource. */
  lemma {:induction false} UnsafeRetryBreaks(s: Store, op: Op, s': Store)
    requires WellFormed(s) && Step(s, op, s') && !RetrySafe(s, op)
    ensures !Exclusive(s')
  {
    var id := op.expected.id;
    var other :| other in s.turns && Conflicts(s.turns[other], s.turns[id]) && Busy(s.turns[other]);
    assert other != id;
    assert s'.turns[other] == s.turns[other] && Busy(s'.turns[id]);
    assert Conflicts(s'.turns[other], s'.turns[id]);
  }

  ghost predicate AlwaysExclusive(tr: Trace) {
    Exclusive(Last(tr)) && (tr.Then? ==> AlwaysExclusive(tr.before))
  }

  ghost predicate RetriesSafe(tr: Trace) {
    tr.Then? ==> RetriesSafe(tr.before) && RetrySafe(Last(tr.before), tr.op)
  }

  /** Mutual exclusion of the store. A run keeps its turns exclusive in every
      state exactly when each of its effective retries was safe. */
  lemma {:induction false} ExclusiveRuns(tr: Trace)
    requires Run(tr)
    ensures AlwaysExclusive(tr) <==> RetriesSafe(tr)
  {
    if tr.Then? {
      ExclusiveRuns(tr.before);
      RunWellFormed(tr.before);
      if RetrySafe(Last(tr.before), tr.op) {
        if Exclusive(Last(tr.before)) {
          StepExclusive(Last(tr.before), tr.op, tr.state);
        }
      } else {
        UnsafeRetryBreaks(Last(tr.before), tr.op, tr.state);
      }
    }
  }

  // ----- transcript conservation -----

  ghost predicate Consecutive(ms: seq<Message>) {
    forall i :: 0 <= i < |ms| ==> ms[i].sequence == i + 1
  }

  ghost predicate Numbered(s: Store) {
    forall k :: k in s.messages ==> Consecutive(s.messages[k])
  }

  ghost function TurnsOf(turns: map<string, Turn>, k: Key): set<string> {
    set id | id in turns && KeyOf(turns[id]) == k
  }

  ghost function FinishedOf(turns: map<string, Turn>, k: Key): set<string> {
    set id | id in turns && KeyOf(turns[id]) == k && !Active(turns[id])
  }

  /** Messages appended to thread `k` directly during the run. */
  ghost function Direct(tr: Trace, k: Key): nat {
    if tr.Start? then 0 else Direct(tr.before, k) + AppendedBy(Last(tr.before), tr.op, k)
  }

  /** A queued turn that is not a replay gets an ID that no stored turn has. */
  ghost predicate FreshTurnId(s: Store, op: Op) {
    op.QueueOp? && Legal(op) && Prepared(op).Ok? && !HasReplay(s, Prepared(op).value.0) ==>
      Prepared(op).value.0.id !in s.turns
  }

  ghost predicate FreshTurnIds(tr: Trace) {
    tr.Then? ==> FreshTurnIds(tr.before) && FreshTurnId(Last(tr.before), tr.op)
  }

  lemma AcceptCounts(turns: map<string, Turn>, t: Turn, k: Key)
    requires t.id !in turns && Active(t)
    ensures |TurnsOf(turns[t.id := t], k)| == |TurnsOf(turns, k)| + (if KeyOf(t) == k then 1 else 0)
    ensures FinishedOf(turns[t.id := t], k) == FinishedOf(turns, k)
  {
    var turns' := turns[t.id := t];
    assert TurnsOf(turns', k) == if KeyOf(t) == k then TurnsOf(turns, k) + {t.id} else TurnsOf(turns, k);
    assert FinishedOf(turns', k) == FinishedOf(turns, k);
  }

  lemma ReplaceCounts(turns: map<string, Turn>, id: string, t: Turn, k: Key)
    requires id in turns && Active(turns[id]) && KeyOf(t) == KeyOf(turns[id])
    ensures TurnsOf(turns[id := t], k) == TurnsOf(turns, k)
    ensures |FinishedOf(turns[id := t], k)| ==
      |FinishedOf(turns, k)| + (if KeyOf(t) == k && !Active(t) then 1 else 0)
  {
    var turns' := turns[id := t];
    forall j ensures j in TurnsOf(turns', k) <==> j in TurnsOf(turns, k) {
    }
    var before, after := FinishedOf(turns, k), FinishedOf(turns', k);
    assert id !in before;
    forall j | j != id ensures j in after <==> j in before {
    }
    if KeyOf(t) == k && !Active(t) {
      assert after == before + {id};
    } else {
      assert after == before;
    }
  }

  /** A step that leaves the turns alone adds only what it appends directly. */
  lemma SameTurnsAdded(s: Store, op: Op, s': Store, k: Key)
    requires WellFormed(s) && Step(s, op, s') && FreshTurnId(s, op) && s'.turns == s.turns
    ensures Added(s, op, s', k) == AppendedBy(s, op, k)
  {
  }

  lemma ChangeCounts(s: Store, op: Op, s': Store, k: Key)
    requires Changes(s, op, s') && FreshTurnId(s, op) && s'.turns != s.turns
    ensures Added(s, op, s', k) + |TurnsOf(s.turns, k)| + |FinishedOf(s.turns, k)| ==
            AppendedBy(s, op, k) + |TurnsOf(s'.turns, k)| + |FinishedOf(s'.turns, k)|
  {
    if Accepts(s, op, s') {
      AcceptCounts(s.turns, Prepared(op).value.0, k);
    } else {
      var id :| Updates(s, op, s', id);
      ReplaceCounts(s.turns, id, s'.turns[id], k);
    }
  }

  /** One step adds to a transcript what it adds to the three counts. */
  lemma {:induction false} StepCounts(s: Store, op: Op, s': Store, k: Key)
    requires WellFormed(s) && Step(s, op, s') && FreshTurnId(s, op)
    ensures Added(s, op, s', k) + |TurnsOf(s.turns, k)| + |FinishedOf(s.turns, k)| ==
            AppendedBy(s, op, k) + |TurnsOf(s'.turns, k)| + |FinishedOf(s'.turns, k)|
  {
    if s'.turns == s.turns {
      SameTurnsAdded(s, op, s', k);
    } else {
      TurnEffect(s, op, s');
      ChangeCounts(s, op, s', k);
    }
  }

  ghost predicate Accounted(s: Store, k: Key, direct: nat) {
    if k in s.threads then |Transcript(s, k)| == direct + |TurnsOf(s.turns, k)| + |FinishedOf(s.turns, k)|
    else direct == 0
  }

  lemma StandingThreadEmpty(s: Store, op: Op, s': Store, k: Key)
    requires op.StandingOp? && Step(s, op, s') && k !in s.threads && k in s'.threads
    ensures Transcript(s', k) == [] && s'.turns == s.turns
  {
  }

  lemma CreatedThreadEmpty(s: Store, op: Op, s': Store, k: Key)
    requires op.CreateThreadOp? && Step(s, op, s') && k !in s.threads && k in s'.threads
    ensures Transcript(s', k) == [] && s'.turns == s.turns
  {
  }

  lemma NewThreadEmpty(s: Store, op: Op, s': Store, k: Key)
    requires WellFormed(s) && Step(s, op, s') && k !in s.threads && k in s'.threads
    ensures Transcript(s', k) == [] && s'.turns == s.turns
  {
    if op.StandingOp? {
      StandingThreadEmpty(s, op, s', k);
    } else if op.CreateThreadOp? {
      CreatedThreadEmpty(s, op, s', k);
    } else if op.AppendOp? || op.RepairOp? {
      MessagesKeepThreads(s, op, s');
    } else {
      TurnsKeepThreads(s, op, s');
    }
  }

  lemma {:induction false} StepAccounted(s: Store, op: Op, s': Store, k: Key, direct: nat)
    requires WellFormed(s) && Step(s, op, s') && FreshTurnId(s, op) && Accounted(s, k, direct)
    ensures Accounted(s', k, direct + AppendedBy(s, op, k))
  {
    if k in s.threads {
      StepEffect(s, op, s', k);
      StepCounts(s, op, s', k);
    } else if k in s'.threads {
      NewThreadEmpty(s, op, s', k);
      assert TurnsOf(s'.turns, k) == {} && FinishedOf(s'.turns, k) == {};
    }
  }

  lemma {:induction false} StepNumberedAt(s: Store, op: Op, s': Store, k: Key)
    requires WellFormed(s) && Numbered(s) && Step(s, op, s') && k in s'.threads
    ensures Consecutive(Transcript(s', k))
  {
    if k in s.threads {
      StepEffect(s, op, s', k);
      assert Consecutive(s.messages[k]);
    } else {
      NewThreadEmpty(s, op, s', k);
    }
  }

  lemma {:induction false} StepNumbered(s: Store, op: Op, s': Store)
    requires WellFormed(s) && Numbered(s) && Step(s, op, s') && WellFormed(s')
    ensures Numbered(s')
  {
    forall k | k in s'.messages ensures Consecutive(s'.messages[k]) {
      StepNumberedAt(s, op, s', k);
    }
  }

  /** Transcript conservation: in every state of every run, message i of a thread
      carries sequence i + 1, and a thread holds exactly the messages appended
      directly, one per turn accepted and one per turn finished. */
  lemma {:induction false} TranscriptRuns(tr: Trace, k: Key)
    requires Run(tr) && FreshTurnIds(tr)
    ensures Numbered(Last(tr))
    ensures Accounted(Last(tr), k, Direct(tr, k))
  {
    if tr.Then? {
      TranscriptRuns(tr.before, k);
      RunWellFormed(tr.before);
      RunWellFormed(tr);
      StepNumbered(Last(tr.before), tr.op, tr.state);
      StepAccounted(Last(tr.before), tr.op, tr.state, k, Direct(tr.before, k));
    }
  }
}
