/** Runs of the chat store: any sequence of operations, successful or refused,
    from the empty store. */
module StoreRuns {
  import opened Strings
  import opened ChatTypes
  import opened StoreSpec

  datatype Op =
    | CreateThreadOp(thread: Thread, now: int, freshId: string)
    | AppendOp(target: Result<Key>, batch: seq<Message>, now: int, freshIds: seq<string>)
    | RepairOp(namespace: string, original: Message, content: string, format: string)
    | QueueOp(turn: Turn, message: Message, now: int, freshTurnId: string, freshMessageId: string)
    | CompleteOp(turn: Turn, message: Message, now: int, freshMessageId: string)
    | RecordOp(turn: Turn, uid: string)
    | ActivateOp(turn: Turn)
    | RetryOp(expected: Turn, retry: TurnRetry, now: int)
    | StandingOp(thread: Thread, now: int, freshId: string)

  /** The identifiers the store generates: one per new record, never empty. */
  ghost predicate Legal(op: Op) {
    match op
    case CreateThreadOp(_, _, f) => f != ""
    case StandingOp(_, _, f) => f != ""
    case AppendOp(_, batch, _, fs) => |fs| == |batch|
    case _ => true
  }

  ghost predicate Step(s: Store, op: Op, s': Store) {
    Legal(op) &&
    match op
    case CreateThreadOp(t, now, f) => s' == CreateThread(s, t, now, f).0
    case AppendOp(target, batch, now, fs) => s' == AppendMessages(s, target, batch, now, fs).0
    case RepairOp(ns, o, c, fmt) => s' == RepairAssistantReply(s, ns, o, c, fmt).0
    case QueueOp(t, m, now, ft, fm) => exists r :: QueueTurn(s, t, m, now, ft, fm, s', r)
    case CompleteOp(t, m, now, f) => s' == CompleteTurn(s, t, m, now, f).0
    case RecordOp(t, uid) => s' == RecordRun(s, t, uid).0
    case ActivateOp(t) => s' == ActivateTurn(s, t).0
    case RetryOp(e, retry, now) => s' == RetryTurn(s, e, retry, now).0
    case StandingOp(t, now, f) => exists r :: EnsureStandingThread(s, t, now, f, s', r)
  }

  /** A run: the empty store followed by operations and the states they left. */
  datatype Trace = Start | Then(before: Trace, op: Op, state: Store)

  function Last(tr: Trace): Store {
    if tr.Start? then EMPTY else tr.state
  }

  ghost predicate Run(tr: Trace) {
    tr.Then? ==> Run(tr.before) && Step(Last(tr.before), tr.op, tr.state)
  }

  /** `tr` continues the run `earlier`. */
  ghost predicate Continues(tr: Trace, earlier: Trace) {
    tr == earlier || (tr.Then? && Continues(tr.before, earlier))
  }

  /** The turn and user message a queue operation would store. */
  function Prepared(op: Op): Result<(Turn, Message)>
    requires op.QueueOp?
  {
    PrepareTurn(op.turn, op.message, op.now, op.freshTurnId, op.freshMessageId)
  }

  /** The step stored a new turn. */
  ghost predicate Accepts(s: Store, op: Op, s': Store) {
    && op.QueueOp? && Legal(op) && Prepared(op).Ok?
    && var (t, m) := Prepared(op).value;
       && KeyOf(t) in s.threads && !HasReplay(s, t) && !Blocked(s, t)
       && s' == Accept(s, t, m).0
  }

  /** The step replaced one stored turn by a later version of it. */
  ghost predicate Updates(s: Store, op: Op, s': Store, id: string) {
    && id in s.turns && id in s'.turns
    && s'.turns == s.turns[id := s'.turns[id]]
    && match op
       case CompleteOp(t, _, _, _) =>
         && t.id == id && Active(s.turns[id]) && SameTurnAttempt(s.turns[id], t) && !Active(t)
         && s'.turns[id] == s.turns[id].(status := t.status, error := t.error, delegates := t.delegates)
       case RecordOp(t, uid) =>
         && t.id == id && Active(s.turns[id]) && SameTurnAttempt(s.turns[id], t)
         && (s.turns[id].runUid == "" || s.turns[id].runUid == uid)
         && s'.turns[id] == s.turns[id].(runUid := uid)
       case ActivateOp(t) =>
         && t.id == id && s.turns[id].status == Waiting && !ResourcesBusy(s, s.turns[id])
         && s'.turns[id] == s.turns[id].(status := Queued)
       case RetryOp(e, retry, now) =>
         && e.id == id && PrepareTurnRetry(s.turns[id], e, retry, now) == Ok(s'.turns[id])
       case _ => false
  }

  /** A queue operation changes nothing or stores its prepared turn. */
  lemma QueueEffect(s: Store, op: Op, s': Store)
    requires op.QueueOp? && Step(s, op, s')
    ensures s' == s || Accepts(s, op, s')
  {
  }

  lemma CompleteEffect(s: Store, op: Op, s': Store)
    requires op.CompleteOp? && WellFormed(s) && Step(s, op, s')
    ensures s' == s || Updates(s, op, s', op.turn.id)
    ensures s' == s || (exists m: Message ::
      m.sequence == |Transcript(s, KeyOf(op.turn))| + 1 && s' == Finish(s, op.turn, m))
  {
  }

  lemma RecordEffect(s: Store, op: Op, s': Store)
    requires op.RecordOp? && s' == RecordRun(s, op.turn, op.uid).0
    ensures s' == s.(turns := s'.turns) && (s' == s || Updates(s, op, s', op.turn.id))
  {
  }

  lemma ActivateEffect(s: Store, op: Op, s': Store)
    requires op.ActivateOp? && s' == ActivateTurn(s, op.turn).0
    ensures s' == s.(turns := s'.turns) && (s' == s || Updates(s, op, s', op.turn.id))
  {
  }

  lemma RetryEffect(s: Store, op: Op, s': Store)
    requires op.RetryOp? && WellFormed(s) && s' == RetryTurn(s, op.expected, op.retry, op.now).0
    ensures s' == s.(turns := s'.turns) && (s' == s || Updates(s, op, s', op.expected.id))
  {
  }

  lemma OtherTurnEffect(s: Store, op: Op, s': Store)
    requires WellFormed(s) && Step(s, op, s')
    requires op.RecordOp? || op.ActivateOp? || op.RetryOp?
    ensures s' == s.(turns := s'.turns)
    ensures s' == s || Updates(s, op, s', if op.RetryOp? then op.expected.id else op.turn.id)
  {
    match op
    case RecordOp(_, _) => RecordEffect(s, op, s');
    case ActivateOp(_) => ActivateEffect(s, op, s');
    case RetryOp(_, _, _) => RetryEffect(s, op, s');
  }

  ghost predicate Changes(s: Store, op: Op, s': Store) {
    s'.turns == s.turns || Accepts(s, op, s') || exists id :: Updates(s, op, s', id)
  }

  lemma {:induction false} ThreadsKeepTurns(s: Store, op: Op, s': Store)
    requires (op.CreateThreadOp? || op.StandingOp? || op.AppendOp? || op.RepairOp?) && Step(s, op, s')
    ensures s'.turns == s.turns
  {
    if op.StandingOp? {
      var r :| EnsureStandingThread(s, op.thread, op.now, op.freshId, s', r);
    }
  }

  /** Every step leaves the turns alone, accepts a new one, or updates one. */
  lemma {:induction false} TurnEffect(s: Store, op: Op, s': Store)
    requires WellFormed(s) && Step(s, op, s')
    ensures Changes(s, op, s')
  {
    match op
    case QueueOp(_, _, _, _, _) => QueueEffect(s, op, s');
    case CompleteOp(_, _, _, _) => CompleteEffect(s, op, s');
    case RecordOp(_, _) => OtherTurnEffect(s, op, s');
    case ActivateOp(_) => OtherTurnEffect(s, op, s');
    case RetryOp(_, _, _) => OtherTurnEffect(s, op, s');
    case _ => ThreadsKeepTurns(s, op, s');
  }

  lemma MessagesKeepThreads(s: Store, op: Op, s': Store)
    requires (op.AppendOp? || op.RepairOp?) && Step(s, op, s')
    ensures s'.threads.Keys == s.threads.Keys
  {
  }

  lemma TurnsKeepThreads(s: Store, op: Op, s': Store)
    requires (op.QueueOp? || op.CompleteOp? || op.RecordOp? || op.ActivateOp? || op.RetryOp?)
    requires WellFormed(s) && Step(s, op, s')
    ensures s'.threads.Keys == s.threads.Keys
  {
    match op
    case QueueOp(_, _, _, _, _) => QueueEffect(s, op, s');
    case CompleteOp(_, _, _, _) => CompleteEffect(s, op, s');
    case _ => OtherTurnEffect(s, op, s');
  }

  /** What a step may do to one transcript: append numbered messages, and rewrite
      the body of assistant messages in place. */
  ghost predicate Grows(ms: seq<Message>, ms': seq<Message>, added: nat) {
    && |ms'| == |ms| + added
    && (forall i :: 0 <= i < |ms| ==>
          && ms'[i].id == ms[i].id && ms'[i].role == ms[i].role && ms'[i].sequence == ms[i].sequence
          && (ms[i].role != AssistantRole ==> ms'[i] == ms[i]))
    && (forall i :: |ms| <= i < |ms'| ==> ms'[i].sequence == i + 1)
  }

  /** The size of the batch the step appended directly to thread `k`. */
  ghost function AppendedBy(s: Store, op: Op, k: Key): nat {
    if op.AppendOp? && Legal(op) && op.target == Ok(k) && AppendMessages(s, op.target, op.batch, op.now, op.freshIds).1.Ok?
    then |op.batch| else 0
  }

  /** Messages the step adds to thread `k`: a direct batch, one user message per
      accepted turn, one closing message per completed turn. */
  ghost function Added(s: Store, op: Op, s': Store, k: Key): nat {
    if op.AppendOp? then AppendedBy(s, op, k)
    else if op.QueueOp? && s' != s && KeyOf(op.turn) == k then 1
    else if op.CompleteOp? && s' != s && KeyOf(op.turn) == k then 1
    else 0
  }

  /** The step keeps the store well formed, keeps thread `k` under its namespace
      and profile, keeps every standing pointer, and grows the transcript of `k`
      by exactly the counted messages. */
  ghost predicate Effect(s: Store, op: Op, s': Store, k: Key)
    requires k in s.threads
  {
    && WellFormed(s') && k in s'.threads
    && s'.threads[k] == s.threads[k].(updatedAt := s'.threads[k].updatedAt)
    && (forall p :: p in s.standing ==> p in s'.standing && s'.standing[p] == s.standing[p])
    && Grows(Transcript(s, k), Transcript(s', k), Added(s, op, s', k))
  }

  /** `s'` has everything `s` has: its turns, threads, transcripts and standing conversations. */
  ghost predicate Extends(s: Store, s': Store) {
    && WellFormed(s') && s'.turns == s.turns && s.threads.Keys <= s'.threads.Keys
    && (forall k :: k in s.threads ==> s'.threads[k] == s.threads[k] && Transcript(s', k) == Transcript(s, k))
    && (forall p :: p in s.standing ==> p in s'.standing && s'.standing[p] == s.standing[p])
  }

  lemma NewThreadExtends(s: Store, t: Thread)
    requires WellFormed(s) && t.id != "" && (t.namespace, t.id) !in s.threads
    ensures
      var k := (t.namespace, t.id);
      Extends(s, s.(threads := s.threads[k := t], messages := s.messages[k := []]))
  {
  }

  lemma RecordStandingExtends(s: Store, k: Key)
    requires WellFormed(s) && k in s.threads && (k.0, s.threads[k].profile) !in s.standing
    ensures Extends(s, s.(standing := s.standing[(k.0, s.threads[k].profile) := k.1]))
  {
  }

  lemma NewStandingExtends(s: Store, t: Thread, k: Key)
    requires WellFormed(s) && t.id != "" && k == (t.namespace, t.id) && k !in s.threads
    requires (t.namespace, t.profile) !in s.standing
    ensures Extends(s, s.(
      threads := s.threads[k := t], messages := s.messages[k := []],
      standing := s.standing[(t.namespace, t.profile) := t.id]))
  {
  }

  lemma {:induction false} EnsurePreparedEffect(s: Store, seed: Thread, s': Store, r: Result<(Thread, bool)>)
    requires WellFormed(s) && seed.id != "" && EnsurePrepared(s, seed, s', r)
    ensures Extends(s, s')
  {
    var p := (seed.namespace, seed.profile);
    if s' != s {
      if HasCandidate(s, seed) {
        var k :| BestCandidate(s, seed, k) && s' == s.(standing := s.standing[p := s.threads[k].id]);
        RecordStandingExtends(s, k);
      } else {
        NewStandingExtends(s, seed, (seed.namespace, seed.id));
      }
    }
  }

  /** A step that only adds threads and standing conversations has no other effect. */
  lemma ExtendsEffect(s: Store, op: Op, s': Store, k: Key)
    requires op.CreateThreadOp? || op.StandingOp?
    requires Extends(s, s') && k in s.threads
    ensures Effect(s, op, s', k)
  {
  }

  lemma {:induction false} NewThreadStepExtends(s: Store, op: Op, s': Store)
    requires WellFormed(s) && Step(s, op, s') && (op.CreateThreadOp? || op.StandingOp?)
    ensures Extends(s, s')
  {
    if s' != s {
      var n := NormalizeThread(op.thread, op.now, op.freshId).value;
      if op.CreateThreadOp? {
        NewThreadExtends(s, n);
      } else {
        var r :| EnsureStandingThread(s, op.thread, op.now, op.freshId, s', r);
        EnsurePreparedEffect(s, n, s', r);
      }
    }
  }

  lemma {:induction false} AppendToEffect(s: Store, t: Key, batch: seq<Message>, now: int, freshIds: seq<string>, k: Key)
    requires |freshIds| == |batch|
    requires WellFormed(s) && t in s.threads && k in s.threads
    ensures
      var (s', r) := AppendTo(s, t, batch, now, freshIds);
      && WellFormed(s') && s'.turns == s.turns && s'.standing == s.standing && s'.threads.Keys == s.threads.Keys
      && s'.threads[k] == s.threads[k].(updatedAt := s'.threads[k].updatedAt)
      && Grows(Transcript(s, k), Transcript(s', k), if r.Ok? && k == t then |batch| else 0)
  {
    var last := |Transcript(s, t)|;
    var stored := NormalizeBatch(batch, |batch|, t.1, last, now, freshIds);
    if stored.Ok? {
      SetTranscriptWellFormed(s, t, Transcript(s, t) + stored.value, now);
      forall i | 0 <= i < |batch| ensures stored.value[i].sequence == last + i + 1 {
        BatchEntry(batch, |batch|, i, t.1, last, now, freshIds);
      }
    }
  }

  lemma {:induction false} RefusedAppendEffect(s: Store, op: Op, k: Key)
    requires op.AppendOp? && Legal(op) && WellFormed(s) && k in s.threads
    requires op.target.Err? || op.target.value !in s.threads || !(0 < |op.batch| <= MAX_APPEND_BATCH)
    ensures AppendMessages(s, op.target, op.batch, op.now, op.freshIds).0 == s && Effect(s, op, s, k)
  {
    assert AppendMessages(s, op.target, op.batch, op.now, op.freshIds).1.Err?;
  }

  lemma {:induction false} TakenAppendEffect(s: Store, op: Op, k: Key)
    requires op.AppendOp? && Legal(op) && WellFormed(s) && k in s.threads
    requires op.target.Ok? && op.target.value in s.threads && 0 < |op.batch| <= MAX_APPEND_BATCH
    ensures Effect(s, op, AppendMessages(s, op.target, op.batch, op.now, op.freshIds).0, k)
  {
    AppendToEffect(s, op.target.value, op.batch, op.now, op.freshIds, k);
  }

  lemma {:induction false} AppendEffect(s: Store, op: Op, s': Store, k: Key)
    requires op.AppendOp? && Legal(op) && WellFormed(s) && k in s.threads
    requires s' == AppendMessages(s, op.target, op.batch, op.now, op.freshIds).0
    ensures Effect(s, op, s', k)
  {
    if op.target.Ok? && op.target.value in s.threads && 0 < |op.batch| <= MAX_APPEND_BATCH {
      TakenAppendEffect(s, op, k);
    } else {
      RefusedAppendEffect(s, op, k);
    }
  }

  lemma RewriteEffect(s: Store, op: Op, t: Key, ms: seq<Message>, k: Key)
    requires op.RepairOp? && WellFormed(s) && t in s.threads && k in s.threads
    requires Grows(Transcript(s, t), ms, 0)
    ensures Effect(s, op, s.(messages := s.messages[t := ms]), k)
  {
  }

  lemma {:induction false} RepairEffect(s: Store, op: Op, s': Store, k: Key)
    requires op.RepairOp? && WellFormed(s) && k in s.threads
    requires s' == RepairAssistantReply(s, op.namespace, op.original, op.content, op.format).0
    ensures Effect(s, op, s', k)
  {
    if s' != s {
      var t := (op.namespace, op.original.threadId);
      RewriteEffect(s, op, t, Transcript(s', t), k);
    }
  }

  lemma AcceptGrows(s: Store, t: Turn, m: Message, k: Key)
    requires WellFormed(s) && KeyOf(t) in s.threads && k in s.threads
    ensures
      var s' := Accept(s, t, m).0;
      && WellFormed(s') && s' != s && s'.standing == s.standing && k in s'.threads
      && s'.threads[k] == s.threads[k].(updatedAt := s'.threads[k].updatedAt)
      && Grows(Transcript(s, k), Transcript(s', k), if KeyOf(t) == k then 1 else 0)
  {
    AcceptWellFormed(s, t, m);
    assert |Transcript(Accept(s, t, m).0, KeyOf(t))| == |Transcript(s, KeyOf(t))| + 1;
  }

  lemma {:induction false} AcceptEffect(s: Store, op: Op, s': Store, k: Key)
    requires WellFormed(s) && Accepts(s, op, s') && k in s.threads
    ensures Effect(s, op, s', k)
  {
    var (t, m) := Prepared(op).value;
    AcceptGrows(s, t, m, k);
  }

  lemma FinishEffect(s: Store, t: Turn, m: Message, k: Key)
    requires WellFormed(s) && t.id in s.turns && KeyOf(t) == KeyOf(s.turns[t.id]) && k in s.threads
    requires m.sequence == |Transcript(s, KeyOf(t))| + 1
    ensures
      var s' := Finish(s, t, m);
      && WellFormed(s') && s' != s && s'.standing == s.standing && s'.threads == s.threads
      && Grows(Transcript(s, k), Transcript(s', k), if KeyOf(t) == k then 1 else 0)
  {
    var ms := Transcript(s, KeyOf(t)) + [m];
    SetTranscriptWellFormed(s, KeyOf(t), ms, 0);
    ReplaceTurnWellFormed(
      s.(messages := s.messages[KeyOf(t) := ms]), s.turns[t.id].(status := t.status, error := t.error, delegates := t.delegates));
    assert Transcript(Finish(s, t, m), KeyOf(t)) == ms;
  }

  lemma ReplaceTurnEffect(s: Store, op: Op, t: Turn, k: Key)
    requires op.RecordOp? || op.ActivateOp? || op.RetryOp?
    requires WellFormed(s) && k in s.threads && KeyOf(t) in s.threads
    ensures Effect(s, op, s.(turns := s.turns[t.id := t]), k)
  {
  }

  lemma {:induction false} UpdateEffect(s: Store, op: Op, s': Store, k: Key)
    requires WellFormed(s) && Step(s, op, s') && k in s.threads
    requires op.RecordOp? || op.ActivateOp? || op.RetryOp?
    ensures Effect(s, op, s', k)
  {
    OtherTurnEffect(s, op, s');
    if s' != s {
      var id := if op.RetryOp? then op.expected.id else op.turn.id;
      ReplaceTurnEffect(s, op, s'.turns[id], k);
    }
  }

  lemma {:induction false} ThreadStepEffect(s: Store, op: Op, s': Store, k: Key)
    requires WellFormed(s) && Step(s, op, s') && k in s.threads
    requires op.CreateThreadOp? || op.StandingOp? || op.AppendOp? || op.RepairOp?
    ensures Effect(s, op, s', k)
  {
    match op
    case AppendOp(_, _, _, _) => AppendEffect(s, op, s', k);
    case RepairOp(_, _, _, _) => RepairEffect(s, op, s', k);
    case _ =>
      NewThreadStepExtends(s, op, s');
      ExtendsEffect(s, op, s', k);
  }

  lemma FinishStepEffect(s: Store, op: Op, m: Message, k: Key)
    requires WellFormed(s) && op.CompleteOp? && op.turn.id in s.turns && KeyOf(op.turn) == KeyOf(s.turns[op.turn.id])
    requires m.sequence == |Transcript(s, KeyOf(op.turn))| + 1 && k in s.threads
    ensures Effect(s, op, Finish(s, op.turn, m), k)
  {
    FinishEffect(s, op.turn, m, k);
  }

  lemma {:induction false} CloseStepEffect(s: Store, op: Op, s': Store, k: Key)
    requires WellFormed(s) && Step(s, op, s') && k in s.threads && op.CompleteOp?
    ensures Effect(s, op, s', k)
  {
    CompleteEffect(s, op, s');
    if s' != s {
      var m: Message :| m.sequence == |Transcript(s, KeyOf(op.turn))| + 1 && s' == Finish(s, op.turn, m);
      FinishStepEffect(s, op, m, k);
    }
  }

  lemma {:induction false} StepEffect(s: Store, op: Op, s': Store, k: Key)
    requires WellFormed(s) && Step(s, op, s') && k in s.threads
    ensures Effect(s, op, s', k)
  {
    match op
    case QueueOp(_, _, _, _, _) =>
      QueueEffect(s, op, s');
      if s' != s { AcceptEffect(s, op, s', k); }
    case CompleteOp(_, _, _, _) => CloseStepEffect(s, op, s', k);
    case RecordOp(_, _) => UpdateEffect(s, op, s', k);
    case ActivateOp(_) => UpdateEffect(s, op, s', k);
    case RetryOp(_, _, _) => UpdateEffect(s, op, s', k);
    case _ => ThreadStepEffect(s, op, s', k);
  }

  lemma {:induction false} StepWellFormed(s: Store, op: Op, s': Store)
    requires WellFormed(s) && Step(s, op, s')
    ensures WellFormed(s')
  {
    if op.CreateThreadOp? || op.StandingOp? {
      NewThreadStepExtends(s, op, s');
    } else if k :| k in s.threads {
      StepEffect(s, op, s', k);
    } else {
      assert s.turns == map[];
      assert s.messages == map[];
    }
  }

  /** Every run ends in a well-formed store. */
  lemma {:induction false} RunWellFormed(tr: Trace)
    requires Run(tr)
    ensures WellFormed(Last(tr))
  {
    if tr.Then? {
      RunWellFormed(tr.before);
      StepWellFormed(Last(tr.before), tr.op, tr.state);
    }
  }

  lemma {:induction false} ContinuesRun(tr: Trace, earlier: Trace)
    requires Run(tr) && Continues(tr, earlier)
    ensures Run(earlier)
  {
    if tr != earlier {
      ContinuesRun(tr.before, earlier);
    }
  }
}
