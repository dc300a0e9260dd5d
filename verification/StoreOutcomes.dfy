/** What each operation on a turn answers and stores, in terms of the transcripts, turns
    and threads before and after it. */
module StoreOutcomes {
  import opened Strings
  import opened ChatTypes
  import opened StoreSpec
  import opened StoreRuns

  // ----- queuing -----

  /** An unfinished turn of the same thread. */
  ghost predicate ThreadTaken(s: Store, t: Turn) {
    exists id :: id in s.turns && s.turns[id].namespace == t.namespace && s.turns[id].threadId == t.threadId
      && s.turns[id].status in {Waiting, Queued, Running}
  }

  /** A queued or running turn of the namespace with the same profile or a common lock key. */
  ghost predicate ResourceTaken(s: Store, t: Turn) {
    exists id :: id in s.turns && s.turns[id].namespace == t.namespace && s.turns[id].status in {Queued, Running}
      && (s.turns[id].profile == t.profile || exists k :: k in s.turns[id].lockKeys && k in t.lockKeys)
  }

  ghost predicate Contains(ms: seq<Message>, id: string) {
    exists i :: 0 <= i < |ms| && ms[i].id == id
  }

  /** A stored turn of the same thread and request whose user message is in the transcript. */
  ghost predicate AskedBefore(s: Store, t: Turn) {
    exists id :: id in s.turns && s.turns[id].threadId == t.threadId && s.turns[id].requestId == t.requestId
      && Contains(Transcript(s, (t.namespace, t.threadId)), s.turns[id].userMessageId)
  }

  /** The conversation is not as long as the caller expects. */
  predicate Outdated(s: Store, t: Turn) {
    t.expectedSequence.Some? && t.expectedSequence.value != |Transcript(s, KeyOf(t))|
  }

  lemma {:induction false} AskedExactly(s: Store, t: Turn)
    ensures AskedBefore(s, t) <==> HasReplay(s, t)
  {
    forall id | id in s.turns
      ensures Contains(Transcript(s, KeyOf(t)), s.turns[id].userMessageId) <==>
        Find(Transcript(s, KeyOf(t)), s.turns[id].userMessageId).Some?
    {
      FoundExactly(Transcript(s, KeyOf(t)), s.turns[id].userMessageId);
    }
    assert forall id :: id in s.turns ==> (Replays(s, s.turns[id], t) <==>
      s.turns[id].threadId == t.threadId && s.turns[id].requestId == t.requestId
      && Contains(Transcript(s, KeyOf(t)), s.turns[id].userMessageId));
  }

  lemma {:induction false} FoundExactly(ms: seq<Message>, id: string)
    ensures Contains(ms, id) <==> Find(ms, id).Some?
  {
    if Find(ms, id).Some? {
      assert ms[Find(ms, id).value].id == id;
    }
  }

  lemma {:induction false} TakenExactly(s: Store, t: Turn)
    ensures Blocked(s, t) <==> ThreadTaken(s, t) || (!t.deferred && ResourceTaken(s, t))
  {
    if id :| id in s.turns && Blocks(s.turns[id], t) {
      assert KeyOf(s.turns[id]) == KeyOf(t) || Conflicts(s.turns[id], t);
    }
    if ThreadTaken(s, t) {
      var id :| id in s.turns && s.turns[id].namespace == t.namespace && s.turns[id].threadId == t.threadId
        && s.turns[id].status in {Waiting, Queued, Running};
      assert Blocks(s.turns[id], t);
    }
    if !t.deferred && ResourceTaken(s, t) {
      var id :| id in s.turns && s.turns[id].namespace == t.namespace && s.turns[id].status in {Queued, Running}
        && (s.turns[id].profile == t.profile || exists k :: k in s.turns[id].lockKeys && k in t.lockKeys);
      assert Conflicts(s.turns[id], t) && Blocks(s.turns[id], t);
    }
  }

  /** A turn is prepared exactly if its request and thread are well formed and its message
      can be stored as a user message. */
  lemma {:induction false} PrepareExactly(op: Op)
    requires op.QueueOp?
    ensures Prepared(op).Ok? <==>
      && IsUuid(op.turn.requestId) && Trim(op.turn.namespace) != "" && ParseUuid(Trim(op.turn.threadId)).Some?
      && Storable(op.message.(role := UserRole), op.turn.threadId)
  {
    StorableExactly(op.message.(role := UserRole), op.turn.threadId, 1, op.now, op.freshMessageId);
  }

  /** One message is added, at the end of thread `k` under the next number. */
  ghost predicate Appended(s: Store, s': Store, k: Key, m: Message) {
    && Transcript(s', k) == Transcript(s, k) + [m] && m.sequence == |Transcript(s, k)| + 1
    && forall j :: j != k ==> Transcript(s', j) == Transcript(s, j)
  }

  /** Which answer a queue operation gives, and that only an accepted one changes the store. */
  lemma {:induction false} QueueAnswers(s: Store, op: Op, s': Store, r: Result<Accepted>)
    requires op.QueueOp? && Prepared(op).Ok?
    requires QueueTurn(s, op.turn, op.message, op.now, op.freshTurnId, op.freshMessageId, s', r)
    ensures var t := Prepared(op).value.0;
      var open := (t.namespace, t.threadId) in s.threads;
      var free := !ThreadTaken(s, t) && (t.deferred || !ResourceTaken(s, t));
      && (r == Err(NotFound) <==> !open)
      && (r == Err(TurnActive) <==> open && !AskedBefore(s, t) && !free)
      && (r == Err(ConversationChanged) <==> open && !AskedBefore(s, t) && free && Outdated(s, t))
      && (open && !AskedBefore(s, t) && free && !Outdated(s, t) ==> r.Ok?)
      && (s' != s ==> open && !AskedBefore(s, t) && free && !Outdated(s, t))
  {
    AskedExactly(s, Prepared(op).value.0);
    TakenExactly(s, Prepared(op).value.0);
  }

  /** What an accepted turn leaves: the caller's message at the end of its thread under the
      next number, the turn itself, and everything else as it was. */
  lemma {:induction false} QueueStores(s: Store, op: Op, s': Store, r: Result<Accepted>)
    requires op.QueueOp? && Prepared(op).Ok? && (op.turn.namespace, op.turn.threadId) in s.threads
    requires QueueTurn(s, op.turn, op.message, op.now, op.freshTurnId, op.freshMessageId, s', r)
    requires r.Ok? && !AskedBefore(s, Prepared(op).value.0)
    ensures var (k, t, user) := (KeyOf(op.turn), r.value.turn, r.value.message);
      && Appended(s, s', k, user)
      && user.role == UserRole && user.content == op.message.content && user.metadata == op.message.metadata
      && (op.turn.expectedSequence.Some? ==> user.sequence == op.turn.expectedSequence.value + 1)
      && s'.turns == s.turns[t.id := t] && t.userMessageId == user.id
      && t.status == (if op.turn.deferred then Waiting else Queued)
      && t == op.turn.(id := t.id, lockKeys := t.lockKeys, status := t.status, createdAt := op.now, userMessageId := user.id)
      && (op.turn.id != "" ==> t.id == op.turn.id) && multiset(t.lockKeys) == multiset(op.turn.lockKeys) && Sorted(t.lockKeys)
      && s'.threads == s.threads[k := s.threads[k].(updatedAt := op.now)] && r.value.thread == s'.threads[k]
      && s'.standing == s.standing
  {
    AskedExactly(s, Prepared(op).value.0);
    SortStringsSorted(op.turn.lockKeys);
  }

  /** The same over runs: a turn whose caller expected `n` messages is only ever accepted
      onto exactly `n`, as message n + 1. */
  lemma {:induction false} ExpectedSequenceRuns(tr: Trace)
    requires Run(tr) && tr.Then? && tr.op.QueueOp? && tr.state != Last(tr.before) && tr.op.turn.expectedSequence.Some?
    ensures var (k, n) := (KeyOf(tr.op.turn), tr.op.turn.expectedSequence.value);
      && |Transcript(Last(tr.before), k)| == n && |Transcript(tr.state, k)| == n + 1
      && Transcript(tr.state, k)[n].sequence == n + 1 && Transcript(tr.state, k)[n].content == tr.op.message.content
  {
    var (s, op) := (Last(tr.before), tr.op);
    var r :| QueueTurn(s, op.turn, op.message, op.now, op.freshTurnId, op.freshMessageId, tr.state, r);
    QueueAnswers(s, op, tr.state, r);
    QueueStores(s, op, tr.state, r);
  }

  // ----- completing -----

  /** The snapshot names the stored turn, its current run and attempt. */
  predicate Names(snapshot: Turn, t: Turn) {
    && snapshot.id == t.id && snapshot.namespace == t.namespace && snapshot.threadId == t.threadId
    && snapshot.runName == t.runName && snapshot.retryCount == t.retryCount && snapshot.runUid in {"", t.runUid}
  }

  predicate Storable(m: Message, threadId: string) {
    && m.role != UnknownRole && Trim(m.content) != "" && |m.content| <= MAX_MESSAGE_BYTES && m.metadata.Fields?
    && IsUuid(Trim(threadId)) && (Trim(m.id) == "" || IsUuid(Trim(m.id)))
  }

  lemma StorableExactly(m: Message, threadId: string, sequence: int, now: int, freshId: string)
    requires sequence >= 1
    ensures NormalizeMessage(m.(threadId := threadId, sequence := sequence), now, freshId).Ok? <==> Storable(m, threadId)
  {
  }

  /** A completion is answered Ok exactly if the turn was finished before or its current
      attempt is closed now with an acceptable message. */
  lemma {:induction false} CompleteAnswers(s: Store, t: Turn, m: Message, now: int, freshId: string)
    ensures var (s', r) := CompleteTurn(s, t, m, now, freshId);
      var unfinished := t.id in s.turns && s.turns[t.id].status in {Waiting, Queued, Running};
      var closes := unfinished && Names(t, s.turns[t.id]) && t.status.Finished? && Storable(m, t.threadId);
      && (r == Err(NotFound) <==> t.id !in s.turns)
      && (r.Ok? <==> (t.id in s.turns && !unfinished) || closes)
      && (s' != s <==> closes)
      && (r == Err(RequestConflict) <==> unfinished && !Names(t, s.turns[t.id]))
  {
    StorableExactly(m, t.threadId, |Transcript(s, KeyOf(t))| + 1, now, freshId);
    ClosedDiffers(s, t, m, now, freshId);
  }

  lemma {:induction false} ClosedDiffers(s: Store, t: Turn, m: Message, now: int, freshId: string)
    ensures t.id in s.turns && Active(s.turns[t.id]) && CompleteTurn(s, t, m, now, freshId).1.Ok? ==>
      CompleteTurn(s, t, m, now, freshId).0 != s
  {
    var (s', r) := CompleteTurn(s, t, m, now, freshId);
    if t.id in s.turns && Active(s.turns[t.id]) && r.Ok? {
      assert s'.turns[t.id].status == t.status;
    }
  }

  /** What a completion leaves: the caller's message at the end of the turn's thread under
      the next number, the turn with the caller's outcome, and everything else as it was. */
  lemma {:induction false} CompleteStores(s: Store, t: Turn, m: Message, now: int, freshId: string) returns (reply: Message)
    requires CompleteTurn(s, t, m, now, freshId).0 != s
    ensures var s' := CompleteTurn(s, t, m, now, freshId).0;
      && Appended(s, s', (t.namespace, t.threadId), reply)
      && reply.content == m.content && reply.role == m.role && reply.metadata == m.metadata
      && reply.threadId == Trim(t.threadId) && (Trim(m.id) != "" ==> reply.id == Trim(m.id))
      && t.id in s.turns
      && s'.turns == s.turns[t.id := s.turns[t.id].(status := t.status, error := t.error, delegates := t.delegates)]
      && s'.threads == s.threads && s'.standing == s.standing
  {
    var k := KeyOf(t);
    reply := NormalizeMessage(m.(threadId := t.threadId, sequence := |Transcript(s, k)| + 1), now, freshId).value;
  }

  // ----- threads and direct messages -----

  /** A thread is created exactly if it is acceptable and its key is free, empty and with
      the trimmed identity its caller gave. */
  lemma {:induction false} CreateAnswers(s: Store, t: Thread, now: int, freshId: string)
    requires freshId != ""
    ensures var (s', r) := CreateThread(s, t, now, freshId);
      var id := if Trim(t.id) == "" then freshId else Trim(t.id);
      var k := (Trim(t.namespace), id);
      && (r.Ok? <==> NormalizeThread(t, now, freshId).Ok? && k !in s.threads) && (r.Err? ==> s' == s)
      && (r.Ok? ==>
            && s' == s.(threads := s.threads[k := r.value], messages := s.messages[k := []])
            && r.value.id == id && r.value.namespace == k.0 && r.value.profile == Trim(t.profile)
            && r.value.createdBy == Trim(t.createdBy) && r.value.metadata == t.metadata
            && r.value.mode == (if t.mode.UnsetMode? then Persona else t.mode)
            && r.value.createdAt == (if t.createdAt == 0 then now else t.createdAt)
            && r.value.updatedAt == (if t.updatedAt == 0 then r.value.createdAt else t.updatedAt))
  {
  }

  ghost predicate AllStorable(batch: seq<Message>, n: nat, threadId: string)
    requires n <= |batch|
  {
    n == 0 || (AllStorable(batch, n - 1, threadId) && Storable(batch[n - 1], threadId))
  }

  lemma {:induction false} EachStorable(batch: seq<Message>, n: nat, threadId: string)
    requires n <= |batch|
    ensures AllStorable(batch, n, threadId) <==> forall i :: 0 <= i < n ==> Storable(batch[i], threadId)
  {
    if n > 0 {
      EachStorable(batch, n - 1, threadId);
    }
  }

  lemma {:induction false} BatchAccepted(batch: seq<Message>, n: nat, threadId: string, last: nat, now: int, freshIds: seq<string>)
    requires n <= |batch| == |freshIds|
    ensures NormalizeBatch(batch, n, threadId, last, now, freshIds).Ok? <==> AllStorable(batch, n, threadId)
    decreases n
  {
    if n > 0 {
      BatchAccepted(batch, n - 1, threadId, last, now, freshIds);
      BatchOneMore(batch, n, threadId, last, now, freshIds);
    }
  }

  lemma {:induction false} BatchOneMore(batch: seq<Message>, n: nat, threadId: string, last: nat, now: int, freshIds: seq<string>)
    requires 0 < n <= |batch| == |freshIds|
    ensures NormalizeBatch(batch, n, threadId, last, now, freshIds).Ok? <==>
      NormalizeBatch(batch, n - 1, threadId, last, now, freshIds).Ok? && Storable(batch[n - 1], threadId)
  {
    StorableExactly(batch[n - 1], threadId, last + n, now, freshIds[n - 1]);
  }

  lemma {:induction false} BatchKept(batch: seq<Message>, n: nat, i: nat, threadId: string, last: nat, now: int, freshIds: seq<string>)
    requires i < n <= |batch| == |freshIds| && NormalizeBatch(batch, n, threadId, last, now, freshIds).Ok?
    ensures var m := NormalizeBatch(batch, n, threadId, last, now, freshIds).value[i];
      && m.content == batch[i].content && m.role == batch[i].role && m.metadata == batch[i].metadata
      && m.sequence == last + i + 1
  {
    if i < n - 1 {
      BatchKept(batch, n - 1, i, threadId, last, now, freshIds);
    }
  }

  /** A batch is appended exactly if it has between 1 and 16 messages, all acceptable, and
      its thread exists; then as a whole, in order, under the next numbers. */
  lemma {:induction false} AppendAnswers(s: Store, target: Result<Key>, batch: seq<Message>, now: int, freshIds: seq<string>)
    requires |freshIds| == |batch|
    ensures var (s', r) := AppendMessages(s, target, batch, now, freshIds);
      && (r.Ok? <==>
            && target.Ok? && target.value in s.threads && 0 < |batch| <= 16
            && forall i :: 0 <= i < |batch| ==> Storable(batch[i], target.value.1))
      && (r.Err? ==> s' == s)
      && (r.Ok? ==>
            var k := target.value;
            && |r.value| == |batch|
            && s' == s.(
                 threads := s.threads[k := s.threads[k].(updatedAt := now)], messages := s.messages[k := Transcript(s, k) + r.value])
            && forall i :: 0 <= i < |batch| ==>
                 && r.value[i].content == batch[i].content && r.value[i].role == batch[i].role
                 && r.value[i].metadata == batch[i].metadata && r.value[i].sequence == |Transcript(s, k)| + i + 1)
  {
    if target.Ok? && target.value in s.threads {
      var (k, n) := (target.value, |batch|);
      var last := |Transcript(s, k)|;
      BatchAccepted(batch, n, k.1, last, now, freshIds);
      EachStorable(batch, n, k.1);
      if NormalizeBatch(batch, n, k.1, last, now, freshIds).Ok? {
        forall i | 0 <= i < n
          ensures var m := NormalizeBatch(batch, n, k.1, last, now, freshIds).value[i];
            m.content == batch[i].content && m.role == batch[i].role && m.metadata == batch[i].metadata && m.sequence == last + i + 1
        {
          BatchKept(batch, n, i, k.1, last, now, freshIds);
        }
      }
    }
  }

  // ----- the other operations on a turn -----

  /** Activation answers true exactly if the turn is queued or running afterwards, and
      queues it exactly if it was waiting and its resources were free. */
  lemma {:induction false} ActivateAnswers(s: Store, t: Turn)
    ensures var (s', r) := ActivateTurn(s, t);
      && (r.Err? <==> t.id !in s.turns) && (r.Err? ==> r.error == NotFound && s' == s)
      && (t.id in s.turns ==>
            var cur := s.turns[t.id];
            && t.id in s'.turns && (r.value <==> s'.turns[t.id].status in {Queued, Running})
            && s' == s.(turns := s'.turns)
            && (cur.status == Waiting && !ResourceTaken(s, cur) ==> s'.turns == s.turns[t.id := cur.(status := Queued)])
            && (cur.status != Waiting || ResourceTaken(s, cur) ==> s'.turns == s.turns))
  {
    if t.id in s.turns {
      BusyExactly(s, s.turns[t.id]);
    }
  }

  lemma {:induction false} BusyExactly(s: Store, t: Turn)
    ensures ResourcesBusy(s, t) <==> ResourceTaken(s, t)
  {
    if id :| id in s.turns && Conflicts(s.turns[id], t) && Busy(s.turns[id]) {
      assert s.turns[id].status in {Queued, Running};
    }
    if ResourceTaken(s, t) {
      var id :| id in s.turns && s.turns[id].namespace == t.namespace && s.turns[id].status in {Queued, Running}
        && (s.turns[id].profile == t.profile || exists k :: k in s.turns[id].lockKeys && k in t.lockKeys);
      assert Conflicts(s.turns[id], t);
    }
  }

  /** A run is bound exactly to the caller's own unfinished attempt that has none or this one. */
  lemma {:induction false} RecordAnswers(s: Store, t: Turn, uid: string)
    ensures var (s', r) := RecordRun(s, t, uid);
      var unfinished := t.id in s.turns && s.turns[t.id].status in {Waiting, Queued, Running};
      && (r.Ok? <==> unfinished && Names(t, s.turns[t.id]) && s.turns[t.id].runUid in {"", uid})
      && (r.Ok? ==> s' == s.(turns := s.turns[t.id := s.turns[t.id].(runUid := uid)])) && (r.Err? ==> s' == s)
  {
  }

  /** A retry is granted exactly to the caller's own unfinished attempt with retries left
      and a complete, different run, and leaves a queued turn that runs it, with one more
      receipt for the run it replaces. */
  lemma {:induction false} RetryAnswers(s: Store, t: Turn, retry: TurnRetry, now: int)
    requires t.id in s.turns && s.turns[t.id].id == t.id
    ensures var (s', r) := RetryTurn(s, t, retry, now);
      var cur := s.turns[t.id];
      && (r.Ok? <==>
            && cur.status in {Waiting, Queued, Running} && Names(t, cur) && cur.retryCount < 2
            && retry.runName !in {"", cur.runName} && retry.runJson != "" && retry.reason != "" && retry.at != 0)
      && (r.Err? ==> s' == s)
      && (r.Ok? ==>
            && s' == s.(turns := s.turns[t.id := r.value])
            && r.value.status == Queued && r.value.error == "" && r.value.runUid == ""
            && r.value.runName == retry.runName && r.value.runJson == retry.runJson
            && r.value.retryAt == Some(retry.at) && r.value.recoveryReason == retry.reason
            && r.value.retryCount == cur.retryCount + 1 && |r.value.attempts| == |cur.attempts| + 1
            && r.value.attempts[..|cur.attempts|] == cur.attempts
            && r.value.attempts[|cur.attempts|] == TurnAttempt(cur.runName, cur.runUid, retry.reason, now))
  {
  }

  // ----- standing conversations -----

  predicate Direct(t: Thread, namespace: string, profile: string) {
    && t.namespace == namespace && t.profile == profile && profile != "" && t.metadata.Fields?
    && "harnessProfileName" !in t.metadata.fields && "sourceThreadId" !in t.metadata.fields
    && "sourceTurnId" !in t.metadata.fields && "sourceProfileName" !in t.metadata.fields
  }

  lemma {:induction false} DirectExactly(t: Thread, seed: Thread)
    requires seed.profile != ""
    ensures Candidate(t, seed) <==> Direct(t, seed.namespace, seed.profile)
  {
  }

  /** An agent without a recorded conversation gets, of all direct threads of its own, one
      that none is more recent than, the first by identifier among the most recent; it
      becomes the recorded one. Without any, a new empty thread is created and recorded. */
  lemma {:induction false} StandingAnswers(s: Store, op: Op, s': Store, r: Result<(Thread, bool)>)
    requires WellFormed(s) && op.StandingOp? && Legal(op) && EnsureStandingThread(s, op.thread, op.now, op.freshId, s', r)
    requires (Trim(op.thread.namespace), Trim(op.thread.profile)) !in s.standing && r.Ok?
    ensures var (ns, profile, (t, created)) := (Trim(op.thread.namespace), Trim(op.thread.profile), r.value);
      && Direct(t, ns, profile) && s' == s.(threads := s'.threads, messages := s'.messages, standing := s.standing[(ns, profile) := t.id])
      && (ns, t.id) in s'.threads && s'.threads[(ns, t.id)] == t
      && (created <==> forall k :: k in s.threads ==> !Direct(s.threads[k], ns, profile))
      && (created ==> s'.threads == s.threads[(ns, t.id) := t] && s'.messages == s.messages[(ns, t.id) := []] && (ns, t.id) !in s.threads)
      && (!created ==> s'.threads == s.threads && s'.messages == s.messages)
      && (forall k :: k in s.threads && Direct(s.threads[k], ns, profile) ==>
            s.threads[k].updatedAt < t.updatedAt || (s.threads[k].updatedAt == t.updatedAt && LexLe(t.id, s.threads[k].id)))
  {
    var seed := NormalizeThread(op.thread, op.now, op.freshId).value;
    forall k | k in s.threads ensures Candidate(s.threads[k], seed) <==> Direct(s.threads[k], seed.namespace, seed.profile) {
      DirectExactly(s.threads[k], seed);
    }
    DirectExactly(seed, seed);
    if HasCandidate(s, seed) {
      var best :| BestCandidate(s, seed, best) && r == Ok((s.threads[best], false));
      forall k | k in s.threads && Candidate(s.threads[k], seed)
        ensures s.threads[k].updatedAt < s.threads[best].updatedAt ||
          (s.threads[k].updatedAt == s.threads[best].updatedAt && LexLe(s.threads[best].id, s.threads[k].id))
      {
        LexTotal(s.threads[best].id, s.threads[best].id);
        assert k == best || Preferred(s.threads[best], s.threads[k]);
      }
    }
  }

  // ----- messages over runs -----

  /** A reply of the one backend, from a run of a turn, in the known format and not yet repaired. */
  predicate Repairable(m: Message, content: string, format: string) {
    && m.role == AssistantRole && m.id != "" && m.threadId != "" && m.metadata.Fields?
    && Trim(content) != "" && |content| <= MAX_MESSAGE_BYTES && format == "openclaw.payloads/v1"
    && "backend" in m.metadata.fields && m.metadata.fields["backend"] == "openClaw"
    && "turnId" in m.metadata.fields && "runName" in m.metadata.fields && "replyFormat" !in m.metadata.fields
  }

  /** A repair is granted exactly if the caller's reply is repairable and the first stored
      message with its identifier is still that reply. */
  lemma {:induction false} RepairAnswers(s: Store, op: Op)
    requires op.RepairOp?
    ensures var (s', r) := RepairAssistantReply(s, op.namespace, op.original, op.content, op.format);
      var ms := Transcript(s, (op.namespace, op.original.threadId));
      && (r.Ok? <==>
            && Repairable(op.original, op.content, op.format)
            && exists i :: 0 <= i < |ms| && ms[i].id == op.original.id && (forall j :: 0 <= j < i ==> ms[j].id != op.original.id)
                 && ms[i].role == AssistantRole && ms[i].content == op.original.content && ms[i].metadata == op.original.metadata)
      && (r.Err? ==> s' == s)
  {
    var ms := Transcript(s, (op.namespace, op.original.threadId));
    var at := Find(ms, op.original.id);
    forall i | 0 <= i < |ms| && ms[i].id == op.original.id && (forall j :: 0 <= j < i ==> ms[j].id != op.original.id)
      ensures at == Some(i)
    {
    }
  }

  /** A granted repair rewrites the content of exactly one message, the first of its
      thread with that identifier, which is the assistant reply the caller saw, and marks it. */
  lemma {:induction false} RepairStores(s: Store, op: Op) returns (i: nat)
    requires op.RepairOp? && RepairAssistantReply(s, op.namespace, op.original, op.content, op.format).1.Ok?
    ensures var (s', r) := RepairAssistantReply(s, op.namespace, op.original, op.content, op.format);
      var ms := Transcript(s, (op.namespace, op.original.threadId));
      && i < |ms| && ms[i].id == op.original.id && (forall j :: 0 <= j < i ==> ms[j].id != op.original.id)
      && ms[i].role == AssistantRole && ms[i].content == op.original.content && ms[i].metadata == op.original.metadata
      && ms[i].metadata.Fields? && "replyFormat" !in ms[i].metadata.fields
      && r.value == ms[i].(content := op.content, metadata := Fields(ms[i].metadata.fields["replyFormat" := op.format]))
      && s' == s.(messages := s.messages[(op.namespace, op.original.threadId) := ms[i := r.value]])
  {
    i := Find(Transcript(s, (op.namespace, op.original.threadId)), op.original.id).value;
  }

  /** No operation but a repair touches a stored message. */
  lemma {:induction false} StepPrefix(s: Store, op: Op, s': Store, k: Key)
    requires WellFormed(s) && Step(s, op, s') && !op.RepairOp? && k in s.threads
    ensures Transcript(s, k) <= Transcript(s', k)
  {
    if op.CreateThreadOp? || op.StandingOp? {
      NewThreadStepExtends(s, op, s');
    } else if op.QueueOp? {
      QueueEffect(s, op, s');
    } else if op.AppendOp? || op.CompleteOp? {
      AppendPrefix(s, op, s', k);
    } else {
      OtherTurnEffect(s, op, s');
    }
  }

  lemma {:induction false} AppendPrefix(s: Store, op: Op, s': Store, k: Key)
    requires WellFormed(s) && Step(s, op, s') && (op.AppendOp? || op.CompleteOp?) && k in s.threads
    ensures Transcript(s, k) <= Transcript(s', k)
  {
    if op.CompleteOp? && s' != s {
      var reply := CompleteStores(s, op.turn, op.message, op.now, op.freshMessageId);
    }
  }

  /** A later version of a message: the same, or an unmarked assistant reply with new
      content and the mark of a repair. */
  predicate Kept(m: Message, m': Message) {
    || m' == m
    || (&& m.role == AssistantRole && m.metadata.Fields? && "replyFormat" !in m.metadata.fields && m'.metadata.Fields?
        && "replyFormat" in m'.metadata.fields && m'.metadata.fields - {"replyFormat"} == m.metadata.fields
        && m' == m.(content := m'.content, metadata := m'.metadata))
  }

  /** A repair of a message with this identifier in this thread. */
  predicate Repairs(op: Op, k: Key, id: string) {
    op.RepairOp? && (op.namespace, op.original.threadId) == k && op.original.id == id
  }

  lemma {:induction false} RepairKept(s: Store, op: Op, s': Store, k: Key, i: nat)
    requires Step(s, op, s') && op.RepairOp? && i < |Transcript(s, k)|
    ensures i < |Transcript(s', k)| && Kept(Transcript(s, k)[i], Transcript(s', k)[i])
    ensures !Repairs(op, k, Transcript(s, k)[i].id) ==> Transcript(s', k)[i] == Transcript(s, k)[i]
  {
    if RepairAssistantReply(s, op.namespace, op.original, op.content, op.format).1.Ok? {
      var at := RepairStores(s, op);
      if k == (op.namespace, op.original.threadId) && at == i {
        var fields := Transcript(s, k)[i].metadata.fields;
        assert fields["replyFormat" := op.format] - {"replyFormat"} == fields;
      }
    }
  }

  lemma {:induction false} StepKept(s: Store, op: Op, s': Store, k: Key, i: nat)
    requires WellFormed(s) && Step(s, op, s') && k in s.threads && i < |Transcript(s, k)|
    ensures i < |Transcript(s', k)| && Kept(Transcript(s, k)[i], Transcript(s', k)[i])
    ensures !Repairs(op, k, Transcript(s, k)[i].id) ==> Transcript(s', k)[i] == Transcript(s, k)[i]
  {
    if op.RepairOp? {
      RepairKept(s, op, s', k, i);
    } else {
      StepPrefix(s, op, s', k);
    }
  }

  /** No step of the run after `earlier` repairs the message. */
  ghost predicate Unrepaired(tr: Trace, earlier: Trace, k: Key, id: string) {
    tr == earlier || (tr.Then? && Unrepaired(tr.before, earlier, k, id) && !Repairs(tr.op, k, id))
  }

  /** Over any stretch of any run a stored message stays in its place. It never changes
      unless a repair names it, and then once at most, in content and mark alone. */
  lemma {:induction false} MessagesKept(tr: Trace, earlier: Trace, k: Key, i: nat)
    requires Run(tr) && Continues(tr, earlier) && k in Last(earlier).threads && i < |Transcript(Last(earlier), k)|
    ensures k in Last(tr).threads && i < |Transcript(Last(tr), k)|
    ensures var (m, m') := (Transcript(Last(earlier), k)[i], Transcript(Last(tr), k)[i]);
      Kept(m, m') && (Unrepaired(tr, earlier, k, m.id) ==> m' == m)
  {
    if tr != earlier {
      MessagesKept(tr.before, earlier, k, i);
      RunWellFormed(tr.before);
      StepEffect(Last(tr.before), tr.op, tr.state, k);
      StepKept(Last(tr.before), tr.op, tr.state, k, i);
    }
  }

  /** The reply of a completed turn is found at the end of the transcript it was completed
      on, in every continuation of the run, as the caller gave it unless it was repaired. */
  lemma {:induction false} RepliesKept(tr: Trace, closed: Trace)
    requires Run(tr) && Continues(tr, closed) && closed.Then? && closed.op.CompleteOp? && closed.state != Last(closed.before)
    ensures var (k, m) := (KeyOf(closed.op.turn), closed.op.message);
      var i := |Transcript(Last(closed.before), k)|;
      && i < |Transcript(Last(tr), k)|
      && var reply := Transcript(Last(tr), k)[i];
         && reply.sequence == i + 1 && reply.role == m.role
         && (Unrepaired(tr, closed, k, reply.id) ==> reply.content == m.content && reply.metadata == m.metadata)
         && (m.role != AssistantRole || (m.metadata.Fields? && "replyFormat" in m.metadata.fields) ==>
               reply.content == m.content && reply.metadata == m.metadata)
  {
    ContinuesRun(tr, closed);
    RunWellFormed(closed.before);
    RunWellFormed(closed);
    var (s, op) := (Last(closed.before), closed.op);
    var k := KeyOf(op.turn);
    var reply := CompleteStores(s, op.turn, op.message, op.now, op.freshMessageId);
    assert k in closed.state.messages.Keys;
    assert Transcript(closed.state, k)[|Transcript(s, k)|] == reply;
    MessagesKept(tr, closed, k, |Transcript(s, k)|);
  }
}
