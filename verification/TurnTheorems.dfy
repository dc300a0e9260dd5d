/** What later steps of a run may still do to an accepted turn, its request and
    an agent's standing conversation. */
module TurnTheorems {
  import opened Strings
  import opened ChatTypes
  import opened StoreSpec
  import opened StoreRuns
  import opened StoreTheorems

  // ----- attempt fencing -----

  /** `b` is a later version of turn `a`: the accepted identity is kept, a finished
      turn is never touched, an attempt keeps its run once bound, and each
      superseded attempt leaves exactly one receipt naming its run. */
  ghost predicate Follows(a: Turn, b: Turn) {
    && b.id == a.id && KeyOf(b) == KeyOf(a) && b.requestId == a.requestId && b.userMessageId == a.userMessageId
    && b.profile == a.profile && b.lockKeys == a.lockKeys
    && (!Active(a) ==> b == a)
    && a.attempts <= b.attempts && |b.attempts| - |a.attempts| == b.retryCount - a.retryCount
    && (b.retryCount == a.retryCount ==> b.runName == a.runName && (a.runUid != "" ==> b.runUid == a.runUid))
    && (b.retryCount > a.retryCount ==>
          var receipt := b.attempts[|a.attempts|];
          receipt.runName == a.runName && (a.runUid != "" ==> receipt.runUid == a.runUid))
  }

  lemma FollowsTransitive(a: Turn, b: Turn, c: Turn)
    requires Follows(a, b) && Follows(b, c)
    ensures Follows(a, c)
  {
  }

  lemma UpdateFollows(s: Store, op: Op, s': Store, id: string)
    requires WellFormed(s) && Updates(s, op, s', id)
    ensures Follows(s.turns[id], s'.turns[id])
  {
  }

  lemma {:induction false} AcceptFollows(s: Store, op: Op, s': Store, id: string)
    requires Accepts(s, op, s') && FreshTurnId(s, op) && id in s.turns
    ensures id in s'.turns && s'.turns[id] == s.turns[id]
  {
  }

  lemma {:induction false} ChangeFollows(s: Store, op: Op, s': Store, id: string)
    requires WellFormed(s) && Changes(s, op, s') && FreshTurnId(s, op) && id in s.turns
    ensures id in s'.turns && Follows(s.turns[id], s'.turns[id])
  {
    if Accepts(s, op, s') {
      AcceptFollows(s, op, s', id);
    } else if s'.turns != s.turns {
      var changed :| Updates(s, op, s', changed);
      UpdateFollows(s, op, s', changed);
    }
  }

  lemma StepFollows(s: Store, op: Op, s': Store, id: string)
    requires WellFormed(s) && Step(s, op, s') && FreshTurnId(s, op) && id in s.turns
    ensures id in s'.turns && Follows(s.turns[id], s'.turns[id])
  {
    TurnEffect(s, op, s');
    ChangeFollows(s, op, s', id);
  }

  /** Over any stretch of any run, a stored turn stays and only moves forward. */
  lemma {:induction false} RunFollows(tr: Trace, earlier: Trace, id: string)
    requires Run(tr) && FreshTurnIds(tr) && Continues(tr, earlier) && id in Last(earlier).turns
    ensures id in Last(tr).turns && Follows(Last(earlier).turns[id], Last(tr).turns[id])
  {
    if tr != earlier {
      RunFollows(tr.before, earlier, id);
      RunWellFormed(tr.before);
      StepFollows(Last(tr.before), tr.op, tr.state, id);
      FollowsTransitive(Last(earlier).turns[id], Last(tr.before).turns[id], tr.state.turns[id]);
    }
  }

  /** A snapshot taken at any earlier point of the run is of the current attempt exactly if
      the turn has not been retried since. */
  lemma {:induction false} SnapshotCurrent(tr: Trace, earlier: Trace, id: string)
    requires Run(tr) && FreshTurnIds(tr) && Continues(tr, earlier) && id in Last(earlier).turns
    ensures id in Last(tr).turns
    ensures SameTurnAttempt(Last(tr).turns[id], Last(earlier).turns[id]) <==>
      Last(tr).turns[id].retryCount == Last(earlier).turns[id].retryCount
  {
    RunFollows(tr, earlier, id);
  }

  /** A holder of a snapshot with fewer retries than the stored turn can neither
      complete it, bind a run to it, nor retry it. */
  lemma StaleSnapshotFenced(s: Store, snapshot: Turn, m: Message, uid: string, retry: TurnRetry, now: int, freshId: string)
    requires snapshot.id in s.turns && snapshot.retryCount < s.turns[snapshot.id].retryCount
    ensures CompleteTurn(s, snapshot, m, now, freshId).0 == s
    ensures RecordRun(s, snapshot, uid).0 == s
    ensures RetryTurn(s, snapshot, retry, now).0 == s
  {
  }

  /** Attempt fencing: once the retry that ends the run `retried` took effect, no
      operation holding a snapshot of the superseded attempt changes anything in
      any continuation of that run. */
  lemma {:induction false} AttemptsFenced(
    tr: Trace, retried: Trace, snapshot: Turn, m: Message, uid: string, retry: TurnRetry, now: int, freshId: string)
    requires Run(tr) && FreshTurnIds(tr) && Continues(tr, retried)
    requires retried.Then? && retried.op.RetryOp?
    requires RetryTurn(Last(retried.before), retried.op.expected, retried.op.retry, retried.op.now).1.Ok?
    requires snapshot.id == retried.op.expected.id && snapshot.retryCount <= retried.op.expected.retryCount
    ensures CompleteTurn(Last(tr), snapshot, m, now, freshId).0 == Last(tr)
    ensures RecordRun(Last(tr), snapshot, uid).0 == Last(tr)
    ensures RetryTurn(Last(tr), snapshot, retry, now).0 == Last(tr)
  {
    ContinuesRun(tr, retried);
    assert retried.state.turns[snapshot.id].retryCount == retried.op.expected.retryCount + 1;
    RunFollows(tr, retried, snapshot.id);
    StaleSnapshotFenced(Last(tr), snapshot, m, uid, retry, now, freshId);
  }

  /** A new turn enters with no retries behind it. */
  ghost predicate FirstAttempt(op: Op) {
    op.QueueOp? ==> op.turn.retryCount == 0 && op.turn.attempts == []
  }

  ghost predicate Bounded(t: Turn) {
    0 <= t.retryCount <= MAX_TURN_RETRIES && |t.attempts| == t.retryCount
  }

  ghost predicate RetriesBounded(s: Store) {
    forall id :: id in s.turns ==> Bounded(s.turns[id])
  }

  lemma ChangeRetriesBounded(s: Store, op: Op, s': Store)
    requires RetriesBounded(s) && Changes(s, op, s') && FirstAttempt(op)
    ensures RetriesBounded(s')
  {
  }

  lemma StepRetriesBounded(s: Store, op: Op, s': Store)
    requires WellFormed(s) && RetriesBounded(s) && Step(s, op, s') && FirstAttempt(op)
    ensures RetriesBounded(s')
  {
    TurnEffect(s, op, s');
    ChangeRetriesBounded(s, op, s');
  }

  ghost predicate FirstAttempts(tr: Trace) {
    tr.Then? ==> FirstAttempts(tr.before) && FirstAttempt(tr.op)
  }

  /** Every turn of every run is retried at most twice, with one receipt per retry. */
  lemma {:induction false} RetriesBoundedRuns(tr: Trace)
    requires Run(tr) && FirstAttempts(tr)
    ensures RetriesBounded(Last(tr))
  {
    if tr.Then? {
      RetriesBoundedRuns(tr.before);
      RunWellFormed(tr.before);
      StepRetriesBounded(Last(tr.before), tr.op, tr.state);
    }
  }

  // ----- request idempotence -----

  /** `user` is the accepted user message of turn `id`, at position `at` of its thread. */
  ghost predicate Recorded(s: Store, id: string, at: nat, user: Message) {
    && id in s.turns
    && s.turns[id].userMessageId == user.id && user.role == UserRole
    && var ms := Transcript(s, KeyOf(s.turns[id]));
       at < |ms| && ms[at] == user && Find(ms, user.id) == Some(at)
  }

  lemma FindGrows(ms: seq<Message>, ms': seq<Message>, added: nat, id: string)
    requires Grows(ms, ms', added) && Find(ms, id).Some?
    ensures Find(ms', id) == Find(ms, id)
  {
  }

  lemma {:induction false} StepRecorded(s: Store, op: Op, s': Store, id: string, at: nat, user: Message)
    requires WellFormed(s) && Step(s, op, s') && FreshTurnId(s, op) && Recorded(s, id, at, user)
    ensures Recorded(s', id, at, user)
  {
    StepFollows(s, op, s', id);
    var k := KeyOf(s.turns[id]);
    StepEffect(s, op, s', k);
    FindGrows(Transcript(s, k), Transcript(s', k), Added(s, op, s', k), user.id);
  }

  predicate SameRequest(a: Turn, b: Turn) {
    KeyOf(a) == KeyOf(b) && a.requestId == b.requestId
  }

  ghost predicate DistinctRequests(turns: map<string, Turn>) {
    forall a, b :: a in turns && b in turns && SameRequest(turns[a], turns[b]) ==> a == b
  }

  /** The user message of a turn is in the transcript of its thread. */
  ghost predicate HasUserMessage(s: Store, t: Turn) {
    Find(Transcript(s, KeyOf(t)), t.userMessageId).Some?
  }

  ghost predicate UserMessagesStored(s: Store) {
    forall a :: a in s.turns ==> HasUserMessage(s, s.turns[a])
  }

  /** Request IDs are used once per thread. */
  ghost predicate UniqueRequests(s: Store) {
    DistinctRequests(s.turns) && UserMessagesStored(s)
  }

  lemma {:induction false} StepUserMessage(s: Store, op: Op, s': Store, a: string)
    requires WellFormed(s) && Step(s, op, s') && FreshTurnId(s, op) && a in s.turns && HasUserMessage(s, s.turns[a])
    ensures a in s'.turns && HasUserMessage(s', s'.turns[a])
  {
    StepFollows(s, op, s', a);
    var k := KeyOf(s.turns[a]);
    StepEffect(s, op, s', k);
    FindGrows(Transcript(s, k), Transcript(s', k), Added(s, op, s', k), s.turns[a].userMessageId);
  }

  /** A stored turn with the request of `t` would be found and replayed. */
  lemma RequestReplays(s: Store, t: Turn, a: string)
    requires UniqueRequests(s) && a in s.turns && SameRequest(s.turns[a], t)
    ensures HasReplay(s, t)
  {
  }

  lemma AcceptUserMessage(s: Store, t: Turn, m: Message)
    requires KeyOf(t) in s.threads && t.userMessageId == m.id
    ensures Find(Transcript(Accept(s, t, m).0, KeyOf(t)), m.id).Some?
  {
    var ms := Transcript(Accept(s, t, m).0, KeyOf(t));
    assert ms[|ms| - 1].id == m.id;
  }

  lemma {:induction false} AcceptRequests(s: Store, op: Op, s': Store)
    requires WellFormed(s) && UniqueRequests(s) && Accepts(s, op, s')
    ensures DistinctRequests(s'.turns)
  {
    var t := Prepared(op).value.0;
    forall a | a in s.turns && SameRequest(s.turns[a], t) ensures false {
      RequestReplays(s, t, a);
    }
  }

  lemma UpdateRequests(turns: map<string, Turn>, id: string, t: Turn)
    requires DistinctRequests(turns) && id in turns && Follows(turns[id], t)
    ensures DistinctRequests(turns[id := t])
  {
  }

  lemma {:induction false} ChangeRequests(s: Store, op: Op, s': Store)
    requires WellFormed(s) && UniqueRequests(s) && Changes(s, op, s')
    ensures DistinctRequests(s'.turns)
  {
    if s'.turns != s.turns {
      if Accepts(s, op, s') {
        AcceptRequests(s, op, s');
      } else {
        var id :| Updates(s, op, s', id);
        UpdateFollows(s, op, s', id);
        UpdateRequests(s.turns, id, s'.turns[id]);
      }
    }
  }

  lemma {:induction false} ChangeUserMessages(s: Store, op: Op, s': Store)
    requires Changes(s, op, s') && forall a :: a in s.turns ==> a in s'.turns && HasUserMessage(s', s'.turns[a])
    ensures UserMessagesStored(s')
  {
    if Accepts(s, op, s') {
      var (t, m) := Prepared(op).value;
      AcceptUserMessage(s, t, m);
    } else {
      assert s'.turns.Keys == s.turns.Keys;
    }
  }

  lemma {:induction false} StepRequests(s: Store, op: Op, s': Store)
    requires WellFormed(s) && UniqueRequests(s) && Step(s, op, s') && FreshTurnId(s, op)
    ensures DistinctRequests(s'.turns) && UserMessagesStored(s')
  {
    forall a | a in s.turns ensures a in s'.turns && HasUserMessage(s', s'.turns[a]) {
      StepUserMessage(s, op, s', a);
    }
    TurnEffect(s, op, s');
    ChangeRequests(s, op, s');
    ChangeUserMessages(s, op, s');
  }

  /** In every run a request ID is used once per thread, and its message is kept. */
  lemma {:induction false} UniqueRequestRuns(tr: Trace)
    requires Run(tr) && FreshTurnIds(tr)
    ensures UniqueRequests(Last(tr))
  {
    if tr.Then? {
      UniqueRequestRuns(tr.before);
      RunWellFormed(tr.before);
      StepRequests(Last(tr.before), tr.op, tr.state);
    }
  }

  // ----- threads of one name -----

  /** Two threads with the same ID, in two namespaces. */
  predicate Namesakes(j: Key, k: Key) {
    j != k && j.1 == k.1
  }

  /** Namesakes have no message ID in common. */
  ghost predicate MessagesApart(s: Store) {
    forall j, k, i :: j in s.threads && k in s.threads && Namesakes(j, k) && 0 <= i < |Transcript(s, k)| ==>
      Find(Transcript(s, j), Transcript(s, k)[i].id).None?
  }

  /** A new message gets an ID that no message of a namesake of its thread has. */
  ghost predicate FreshMessageId(s: Store, s': Store) {
    forall j, k, i :: j in s'.threads && k in s'.threads && Namesakes(j, k) && |Transcript(s, k)| <= i < |Transcript(s', k)| ==>
      Find(Transcript(s', j), Transcript(s', k)[i].id).None?
  }

  ghost predicate FreshMessageIds(tr: Trace) {
    tr.Then? ==> FreshMessageIds(tr.before) && FreshMessageId(Last(tr.before), tr.state)
  }

  /** Old messages stay where they were under their IDs. */
  ghost predicate IdsKept(ms: seq<Message>, ms': seq<Message>) {
    |ms| <= |ms'| && forall i :: 0 <= i < |ms| ==> ms'[i].id == ms[i].id
  }

  lemma {:induction false} StepIdsKept(s: Store, op: Op, s': Store, k: Key)
    requires WellFormed(s) && Step(s, op, s')
    ensures IdsKept(Transcript(s, k), Transcript(s', k))
  {
    if k in s.threads {
      StepEffect(s, op, s', k);
    } else {
      assert k !in s.messages.Keys;
    }
  }

  /** Two transcripts that had no ID in common and got fresh messages have none. */
  lemma {:induction false} KeptApart(a: seq<Message>, a': seq<Message>, b: seq<Message>, b': seq<Message>, i: nat)
    requires IdsKept(a, a') && IdsKept(b, b') && i < |b'|
    requires i < |b| ==> Find(a, b[i].id).None?
    requires i >= |b| ==> Find(a', b'[i].id).None?
    requires forall p :: |a| <= p < |a'| ==> Find(b', a'[p].id).None?
    ensures Find(a', b'[i].id).None?
  {
    if i < |b| {
      forall p | 0 <= p < |a'| ensures a'[p].id != b'[i].id {
        if p < |a| {
          assert a[p].id != b[i].id;
        } else {
          assert Find(b', a'[p].id).None?;
        }
      }
    }
  }

  lemma {:induction false} StepApart(s: Store, op: Op, s': Store, j: Key, k: Key, i: nat)
    requires WellFormed(s) && MessagesApart(s) && Step(s, op, s') && FreshMessageId(s, s')
    requires j in s'.threads && k in s'.threads && Namesakes(j, k) && i < |Transcript(s', k)|
    ensures Find(Transcript(s', j), Transcript(s', k)[i].id).None?
  {
    StepIdsKept(s, op, s', j);
    StepIdsKept(s, op, s', k);
    assert j !in s.threads ==> j !in s.messages.Keys;
    assert k !in s.threads ==> k !in s.messages.Keys;
    KeptApart(Transcript(s, j), Transcript(s', j), Transcript(s, k), Transcript(s', k), i);
  }

  lemma {:induction false} ApartRuns(tr: Trace)
    requires Run(tr) && FreshMessageIds(tr)
    ensures MessagesApart(Last(tr))
  {
    if tr.Then? {
      ApartRuns(tr.before);
      RunWellFormed(tr.before);
      var (s, s') := (Last(tr.before), tr.state);
      forall j, k, i | j in s'.threads && k in s'.threads && Namesakes(j, k) && 0 <= i < |Transcript(s', k)|
        ensures Find(Transcript(s', j), Transcript(s', k)[i].id).None?
      {
        StepApart(s, tr.op, s', j, k, i);
      }
    }
  }

  // ----- replays -----

  lemma {:induction false} RunRecorded(tr: Trace, earlier: Trace, id: string, at: nat, user: Message)
    requires Run(tr) && FreshTurnIds(tr) && Continues(tr, earlier) && Recorded(Last(earlier), id, at, user)
    ensures Recorded(Last(tr), id, at, user)
  {
    if tr != earlier {
      RunRecorded(tr.before, earlier, id, at, user);
      RunWellFormed(tr.before);
      StepRecorded(Last(tr.before), tr.op, tr.state, id, at, user);
    }
  }

  lemma AcceptRecords(s: Store, t: Turn, m: Message)
    requires KeyOf(t) in s.threads && t.userMessageId == m.id && m.role == UserRole
    requires Find(Transcript(s, KeyOf(t)), m.id).None?
    ensures
      var (s', r) := Accept(s, t, m);
      Recorded(s', t.id, |Transcript(s, KeyOf(t))|, r.message)
  {
  }

  /** Only the turn of that very thread is replayed. */
  lemma {:induction false} ReplayUnique(s: Store, id: string, other: string, t: Turn)
    requires WellFormed(s) && UniqueRequests(s) && MessagesApart(s) && id in s.turns && other in s.turns
    requires SameRequest(s.turns[id], t) && Replays(s, s.turns[other], t)
    ensures other == id
  {
    var o := s.turns[other];
    var (j, k) := (KeyOf(t), KeyOf(o));
    assert HasUserMessage(s, o);
    var i := Find(Transcript(s, k), o.userMessageId).value;
    assert Transcript(s, k)[i].id == o.userMessageId;
    assert j != k ==> Namesakes(j, k);
  }

  /** Queuing again under a recorded request replays it or conflicts, and changes nothing. */
  lemma {:induction false} RecordedReplays(
    s: Store, id: string, at: nat, user: Message, t: Turn, m: Message, s': Store, r: Result<Accepted>)
    requires WellFormed(s) && UniqueRequests(s) && MessagesApart(s) && Recorded(s, id, at, user)
    requires KeyOf(t) == KeyOf(s.turns[id]) && t.requestId == s.turns[id].requestId
    requires QueuePrepared(s, t, m, s', r)
    ensures s' == s
    ensures r == if m.content == user.content then Ok(Accepted(s.turns[id], user, s.threads[KeyOf(t)]))
                 else Err(RequestConflict)
  {
    assert Replays(s, s.turns[id], t) && UserMessage(s, s.turns[id], t) == user;
    forall other | other in s.turns && Replays(s, s.turns[other], t) ensures other == id {
      ReplayUnique(s, id, other, t);
    }
  }

  /** Request idempotence: after the run `queued` accepted a turn, queuing the same
      thread, request ID and content at the end of any continuation returns that
      turn in its current version and its original user message, and different
      content is a conflict. Neither changes the store, whatever happened between. */
  lemma {:induction false} RequestsIdempotent(tr: Trace, queued: Trace, t: Turn, m: Message, s': Store, r: Result<Accepted>)
    requires Run(tr) && FreshTurnIds(tr) && FreshMessageIds(tr) && Continues(tr, queued)
    requires queued.Then? && Accepts(Last(queued.before), queued.op, queued.state)
    requires Find(Transcript(Last(queued.before), KeyOf(queued.op.turn)), Prepared(queued.op).value.1.id).None?
    requires KeyOf(t) == KeyOf(queued.op.turn) && t.requestId == queued.op.turn.requestId
    requires QueuePrepared(Last(tr), t, m, s', r)
    ensures
      var (turn, message) := Prepared(queued.op).value;
      var user := Accept(Last(queued.before), turn, message).1.message;
      && s' == Last(tr)
      && turn.id in Last(tr).turns && Follows(turn, Last(tr).turns[turn.id])
      && KeyOf(t) in Last(tr).threads
      && r == if m.content == queued.op.message.content
              then Ok(Accepted(Last(tr).turns[turn.id], user, Last(tr).threads[KeyOf(t)]))
              else Err(RequestConflict)
  {
    var (turn, message) := Prepared(queued.op).value;
    var user := Accept(Last(queued.before), turn, message).1.message;
    var at := |Transcript(Last(queued.before), KeyOf(turn))|;
    AcceptRecords(Last(queued.before), turn, message);
    RunRecorded(tr, queued, turn.id, at, user);
    RunFollows(tr, queued, turn.id);
    RunWellFormed(tr);
    UniqueRequestRuns(tr);
    ApartRuns(tr);
    RecordedReplays(Last(tr), turn.id, at, user, t, m, s', r);
  }

  // ----- standing conversations -----

  /** The preferred eligible thread does not depend on the order of the scan. */
  lemma {:induction false} BestCandidateUnique(s: Store, seed: Thread, j: Key, k: Key)
    requires BestCandidate(s, seed, j) && BestCandidate(s, seed, k)
    ensures j == k
  {
    if j != k {
      LexAntisymmetric(s.threads[j].id, s.threads[k].id);
      assert false;
    }
  }

  /** The standing conversation of agent `p` is thread `id`. */
  ghost predicate Standing(s: Store, p: Key, id: string) {
    && p in s.standing && s.standing[p] == id
    && (p.0, id) in s.threads
    && s.threads[(p.0, id)].namespace == p.0 && s.threads[(p.0, id)].profile == p.1
  }

  /** The first answer records the thread it returned. */
  lemma EnsureEstablishes(s: Store, seed: Thread, s': Store, r: Result<(Thread, bool)>)
    requires WellFormed(s) && seed.id != "" && EnsurePrepared(s, seed, s', r) && r.Ok?
    ensures Standing(s', (seed.namespace, seed.profile), r.value.0.id)
    ensures r.value.1 <==> s'.threads != s.threads
    ensures r.value.1 ==> !HasCandidate(s, seed)
  {
    EnsurePreparedEffect(s, seed, s', r);
  }

  lemma StepStanding(s: Store, op: Op, s': Store, p: Key, id: string)
    requires WellFormed(s) && Step(s, op, s') && Standing(s, p, id)
    ensures Standing(s', p, id)
  {
    StepEffect(s, op, s', (p.0, id));
  }

  lemma {:induction false} RunStanding(tr: Trace, earlier: Trace, p: Key, id: string)
    requires Run(tr) && Continues(tr, earlier) && Standing(Last(earlier), p, id)
    ensures Standing(Last(tr), p, id)
  {
    if tr != earlier {
      RunStanding(tr.before, earlier, p, id);
      RunWellFormed(tr.before);
      StepStanding(Last(tr.before), tr.op, tr.state, p, id);
    }
  }

  /** One standing conversation: once the run `asked` answered a request for an
      agent, every later request for that agent, at the end of any continuation,
      is answered with the same existing thread of the same namespace and profile,
      and creates nothing. */
  lemma {:induction false} StandingRuns(
    tr: Trace, asked: Trace, first: Thread, r: Result<(Thread, bool)>,
    later: Thread, s': Store, r': Result<(Thread, bool)>)
    requires Run(tr) && Continues(tr, asked) && asked.Then?
    requires first.id != "" && EnsurePrepared(Last(asked.before), first, asked.state, r) && r.Ok?
    requires later.namespace == first.namespace && later.profile == first.profile
    requires EnsurePrepared(Last(tr), later, s', r')
    ensures s' == Last(tr)
    ensures r'.Ok? && !r'.value.1 && r'.value.0.id == r.value.0.id
    ensures r'.value.0.namespace == first.namespace && r'.value.0.profile == first.profile
  {
    ContinuesRun(tr, asked);
    RunWellFormed(asked.before);
    EnsureEstablishes(Last(asked.before), first, asked.state, r);
    RunStanding(tr, asked, (first.namespace, first.profile), r.value.0.id);
    RunWellFormed(tr);
  }
}
