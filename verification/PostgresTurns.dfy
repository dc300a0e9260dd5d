/** The PostgreSQL chat store as a concurrent system. A transaction takes its locks
    one at a time, reads under READ COMMITTED, and writes when it commits; any
    number of transactions interleave. Resource exclusion rests on the advisory
    locks alone: the unique indexes are not part of this model, so every run of
    the real system is a run here. Of the messages only the sequence numbers are
    modelled. */
module PostgresTurns {
  import opened Strings
  import opened ChatTypes

  // ----- locks -----

  datatype Lock = Advisory(name: string) | ThreadRow(thread: string) | TurnRow(turn: string)

  /** The server hashes advisory names; `hash` is any function. */
  type Hash = string -> int

  /** Two locks that exclude each other. */
  predicate Clash(hash: Hash, a: Lock, b: Lock) {
    a == b || (a.Advisory? && b.Advisory? && hash(a.name) == hash(b.name))
  }

  function ResourceKeys(t: Turn): seq<string> {
    SortStrings(["profile:" + t.profile] + t.lockKeys)
  }

  function ResourceLocks(t: Turn): seq<Lock> {
    var keys := ResourceKeys(t);
    seq(|keys|, i requires 0 <= i < |keys| => Advisory(t.namespace + "/" + keys[i]))
  }

  datatype Op =
    | Queue(turn: Turn)
    | Activate(turn: Turn)
    | Complete(turn: Turn)
    | Retry(turn: Turn, retry: TurnRetry, now: int)
    | Append(thread: string, size: nat)
    | Standing(namespace: string, profile: string, thread: string)

  /** The locks a transaction takes, in the order in which it takes them. */
  function Plan(op: Op): seq<Lock> {
    match op
    case Queue(t) => ResourceLocks(t) + [ThreadRow(t.threadId)]
    case Activate(t) => ResourceLocks(t) + [TurnRow(t.id)]
    case Complete(t) => [ThreadRow(t.threadId), TurnRow(t.id)]
    case Retry(t, _, _) => [TurnRow(t.id)]
    case Append(thread, _) => [ThreadRow(thread)]
    case Standing(ns, profile, thread) => [Advisory("chat-standing/" + ns + "/" + profile), ThreadRow(thread)]
  }

  /** A transaction in progress: the locks it has (a prefix of its plan), whether
      its busy check passed, the row it read under its row lock, and the sequence
      number it read for its first message. */
  datatype Tx = Tx(op: Op, got: nat, checked: bool, seen: Option<Turn>, number: Option<int>)

  function NewTx(op: Op): Tx {
    Tx(op, 0, false, None, None)
  }

  function Held(tx: Tx): seq<Lock> {
    if tx.got <= |Plan(tx.op)| then Plan(tx.op)[..tx.got] else []
  }

  /** `numbers` are the sequence numbers of the messages of each thread. */
  datatype State = State(rows: map<string, Turn>, txs: map<nat, Tx>, numbers: map<string, seq<int>>)

  function Numbers(s: State, thread: string): seq<int> {
    if thread in s.numbers then s.numbers[thread] else []
  }

  function Highest(numbers: seq<int>): int {
    if numbers == [] then 0
    else
      var (last, rest) := (numbers[|numbers| - 1], Highest(numbers[..|numbers| - 1]));
      if last > rest then last else rest
  }

  ghost predicate Avoids(hash: Hash, lock: Lock, tx: Tx) {
    forall b :: b in Held(tx) ==> !Clash(hash, lock, b)
  }

  ghost predicate LockFree(hash: Hash, s: State, i: nat, lock: Lock) {
    forall j :: j in s.txs && j != i ==> Avoids(hash, lock, s.txs[j])
  }

  // ----- steps -----

  datatype Action =
    | Begin(id: nat, op: Op)
    | Acquire(id: nat)
    | Check(id: nat)
    | Read(id: nat)
    | Number(id: nat)
    | Commit(id: nat)
    | End(id: nat)
    | RecordRun(turn: Turn, uid: string)

  predicate SameResources(a: Turn, b: Turn) {
    a.namespace == b.namespace && a.profile == b.profile && a.lockKeys == b.lockKeys
  }

  ghost predicate RowsBusy(rows: map<string, Turn>, t: Turn) {
    exists id :: id in rows && Conflicts(rows[id], t) && Busy(rows[id])
  }

  ghost predicate ThreadOccupied(rows: map<string, Turn>, t: Turn) {
    exists id :: id in rows && KeyOf(rows[id]) == KeyOf(t) && Active(rows[id])
  }

  /** The request was queued before; the transaction then returns the turn it made. */
  ghost predicate Requested(rows: map<string, Turn>, t: Turn) {
    exists id :: id in rows && rows[id].threadId == t.threadId && rows[id].requestId == t.requestId
  }

  /** The replay and busy checks a queuing or activating transaction makes before it writes. */
  ghost predicate CheckPasses(s: State, tx: Tx) {
    match tx.op
    case Queue(t) =>
      && tx.got == |Plan(tx.op)| && !Requested(s.rows, t)
      && !ThreadOccupied(s.rows, t) && (t.deferred || !RowsBusy(s.rows, t))
    case Activate(t) =>
      && tx.got == |Plan(tx.op)| - 1
      && t.id in s.rows && s.rows[t.id].status == Waiting && !RowsBusy(s.rows, t)
    case _ => false
  }

  /** The locking read of a completing or retrying transaction finds a row it may write. */
  predicate ReadPasses(s: State, tx: Tx) {
    && tx.got == |Plan(tx.op)|
    && match tx.op
       case Complete(t) =>
         t.id in s.rows && Active(s.rows[t.id]) && SameTurnAttempt(s.rows[t.id], t) && !Active(t)
       case Retry(t, retry, now) =>
         t.id in s.rows && PrepareTurnRetry(s.rows[t.id], t, retry, now).Ok?
       case _ => false
  }

  predicate WritesMessages(op: Op) {
    op.Queue? || op.Complete? || op.Append?
  }

  function ThreadOf(op: Op): string
    requires WritesMessages(op)
  {
    if op.Append? then op.thread else op.turn.threadId
  }

  function MessageCount(op: Op): nat {
    if op.Append? then op.size else 1
  }

  /** The transaction may go on to number its messages: a queuing one only if the
      conversation is as long as its caller expects. */
  predicate NumberPasses(s: State, tx: Tx) {
    && tx.got == |Plan(tx.op)|
    && match tx.op
       case Queue(t) =>
         tx.checked && (t.expectedSequence.Some? ==> t.expectedSequence.value == Highest(Numbers(s, t.threadId)))
       case Complete(_) => tx.seen.Some?
       case Append(_, size) => 0 < size <= MAX_APPEND_BATCH
       case _ => false
  }

  predicate CanCommit(s: State, tx: Tx) {
    && tx.got == |Plan(tx.op)| && (WritesMessages(tx.op) ==> tx.number.Some?)
    && match tx.op
       case Queue(t) => tx.checked && t.id !in s.rows && t.status == (if t.deferred then Waiting else Queued)
       case Activate(t) => tx.checked && t.id in s.rows
       case Complete(t) => tx.seen.Some?
       case Retry(t, retry, now) => tx.seen.Some? && PrepareTurnRetry(tx.seen.value, t, retry, now).Ok?
       case _ => true
  }

  /** The rows after the commit. An activation updates the row by ID in whatever
      version it finds; completion and retry write back the version they read. */
  function Written(s: State, tx: Tx): map<string, Turn>
    requires CanCommit(s, tx)
  {
    match tx.op
    case Queue(t) => s.rows[t.id := t]
    case Activate(t) => s.rows[t.id := s.rows[t.id].(status := Queued)]
    case Complete(t) =>
      s.rows[t.id := tx.seen.value.(status := t.status, error := t.error, delegates := t.delegates)]
    case Retry(t, retry, now) => s.rows[t.id := PrepareTurnRetry(tx.seen.value, t, retry, now).value]
    case _ => s.rows
  }

  /** The sequence numbers after the commit. */
  function WrittenNumbers(s: State, tx: Tx): map<string, seq<int>>
    requires CanCommit(s, tx)
  {
    if !WritesMessages(tx.op) then s.numbers
    else
      var thread := ThreadOf(tx.op);
      s.numbers[thread := Numbers(s, thread) + seq(MessageCount(tx.op), i => tx.number.value + i)]
  }

  /** The next lock of the plan is free; an activation takes its row only after its check. */
  ghost predicate MayAcquire(hash: Hash, s: State, i: nat)
    requires i in s.txs
  {
    var tx := s.txs[i];
    && tx.got < |Plan(tx.op)|
    && (tx.op.Activate? && tx.got == |Plan(tx.op)| - 1 ==> tx.checked)
    && LockFree(hash, s, i, Plan(tx.op)[tx.got])
  }

  ghost predicate Step(hash: Hash, s: State, a: Action, s': State) {
    match a
    case Begin(i, op) =>
      i !in s.txs && s' == s.(txs := s.txs[i := NewTx(op)])
    case Acquire(i) =>
      && i in s.txs && MayAcquire(hash, s, i)
      && s' == s.(txs := s.txs[i := s.txs[i].(got := s.txs[i].got + 1)])
    case Check(i) =>
      i in s.txs && CheckPasses(s, s.txs[i]) && s' == s.(txs := s.txs[i := s.txs[i].(checked := true)])
    case Read(i) =>
      && i in s.txs && ReadPasses(s, s.txs[i])
      && s' == s.(txs := s.txs[i := s.txs[i].(seen := Some(s.rows[s.txs[i].op.turn.id]))])
    case Number(i) =>
      && i in s.txs && NumberPasses(s, s.txs[i])
      && s' == s.(txs := s.txs[i := s.txs[i].(number := Some(Highest(Numbers(s, ThreadOf(s.txs[i].op))) + 1))])
    case Commit(i) =>
      && i in s.txs && CanCommit(s, s.txs[i])
      && s' == State(Written(s, s.txs[i]), s.txs - {i}, WrittenNumbers(s, s.txs[i]))
    case End(i) =>
      i in s.txs && s' == s.(txs := s.txs - {i})
    case RecordRun(t, uid) =>
      && t.id in s.rows
      && (forall i :: i in s.txs ==> TurnRow(t.id) !in Held(s.txs[i]))
      && var row := s.rows[t.id];
         && Busy(row) && KeyOf(row) == KeyOf(t) && row.runName == t.runName && row.retryCount == t.retryCount
         && (row.runUid == "" || row.runUid == uid)
         && s' == s.(rows := s.rows[t.id := row.(runUid := uid)])
  }

  /** What the callers are relied on for: an activation passes the resources stored
      with the turn, and a retry is made of a turn that already holds them. */
  ghost predicate Disciplined(s: State, a: Action) {
    && (a.Begin? && a.op.Activate? ==> a.op.turn.id in s.rows && SameResources(s.rows[a.op.turn.id], a.op.turn))
    && (a.Read? && a.id in s.txs && s.txs[a.id].op.Retry? && s.txs[a.id].op.turn.id in s.rows ==>
          Busy(s.rows[s.txs[a.id].op.turn.id]))
  }

  datatype Trace = Start | Then(before: Trace, action: Action, state: State)

  function Last(tr: Trace): State {
    if tr.Start? then State(map[], map[], map[]) else tr.state
  }

  ghost predicate Run(hash: Hash, tr: Trace) {
    tr.Then? ==> Run(hash, tr.before) && Step(hash, Last(tr.before), tr.action, tr.state)
  }

  ghost predicate DisciplinedRun(tr: Trace) {
    tr.Then? ==> DisciplinedRun(tr.before) && Disciplined(Last(tr.before), tr.action)
  }

  // ----- lock exclusion -----

  ghost predicate Apart(hash: Hash, x: Tx, y: Tx) {
    forall a :: a in Held(x) ==> Avoids(hash, a, y)
  }

  /** No transaction holds a lock that clashes with another's. */
  ghost predicate LocksExclusive(hash: Hash, s: State) {
    forall i, j :: i in s.txs && j in s.txs && i != j ==> Apart(hash, s.txs[i], s.txs[j])
  }

  lemma ApartSymmetric(hash: Hash, x: Tx, y: Tx)
    requires Apart(hash, x, y)
    ensures Apart(hash, y, x)
  {
  }

  lemma TakeNext(locks: seq<Lock>, n: nat)
    requires n < |locks|
    ensures locks[..n + 1] == locks[..n] + [locks[n]]
  {
  }

  lemma HeldGrows(x: Tx)
    requires x.got < |Plan(x.op)|
    ensures Held(x.(got := x.got + 1)) == Held(x) + [Plan(x.op)[x.got]]
  {
    TakeNext(Plan(x.op), x.got);
  }

  /** `x` with one more lock. */
  ghost predicate Extends(x': Tx, x: Tx, lock: Lock) {
    Held(x') == Held(x) + [lock]
  }

  lemma ExtendApart(hash: Hash, x: Tx, x': Tx, lock: Lock, y: Tx)
    requires Extends(x', x, lock) && Apart(hash, x, y) && Avoids(hash, lock, y)
    ensures Apart(hash, x', y)
  {
  }

  lemma {:induction false} AcquireApart(hash: Hash, x: Tx, y: Tx)
    requires x.got < |Plan(x.op)| && Apart(hash, x, y) && Avoids(hash, Plan(x.op)[x.got], y)
    ensures Apart(hash, x.(got := x.got + 1), y) && Apart(hash, y, x.(got := x.got + 1))
  {
    HeldGrows(x);
    ExtendApart(hash, x, x.(got := x.got + 1), Plan(x.op)[x.got], y);
    ApartSymmetric(hash, x.(got := x.got + 1), y);
  }

  lemma {:induction false} AcquireExclusive(hash: Hash, s: State, i: nat)
    requires LocksExclusive(hash, s) && i in s.txs && MayAcquire(hash, s, i)
    ensures LocksExclusive(hash, s.(txs := s.txs[i := s.txs[i].(got := s.txs[i].got + 1)]))
  {
    forall j | j in s.txs && j != i
      ensures Apart(hash, s.txs[i].(got := s.txs[i].got + 1), s.txs[j])
      ensures Apart(hash, s.txs[j], s.txs[i].(got := s.txs[i].got + 1))
    {
      AcquireApart(hash, s.txs[i], s.txs[j]);
    }
  }

  /** Changing only what a transaction remembers changes no lock. */
  lemma RememberExclusive(hash: Hash, s: State, i: nat, tx: Tx)
    requires LocksExclusive(hash, s)
    requires tx.got == 0 || (i in s.txs && tx.op == s.txs[i].op && tx.got == s.txs[i].got)
    ensures LocksExclusive(hash, s.(txs := s.txs[i := tx]))
  {
  }

  lemma {:induction false} MarkExclusive(hash: Hash, s: State, a: Action, s': State)
    requires (a.Begin? || a.Check? || a.Read? || a.Number?) && LocksExclusive(hash, s) && Step(hash, s, a, s')
    ensures LocksExclusive(hash, s')
  {
    RememberExclusive(hash, s, a.id, s'.txs[a.id]);
    assert s'.txs == s.txs[a.id := s'.txs[a.id]];
  }

  lemma ReleaseExclusive(hash: Hash, s: State, a: Action, s': State)
    requires (a.Commit? || a.End?) && LocksExclusive(hash, s) && Step(hash, s, a, s')
    ensures LocksExclusive(hash, s')
  {
  }

  lemma {:induction false} TakeExclusive(hash: Hash, s: State, a: Action, s': State)
    requires a.Acquire? && LocksExclusive(hash, s) && Step(hash, s, a, s')
    ensures LocksExclusive(hash, s')
  {
    AcquireExclusive(hash, s, a.id);
    assert s' == s.(txs := s.txs[a.id := s.txs[a.id].(got := s.txs[a.id].got + 1)]);
  }

  lemma {:induction false} StepLocksExclusive(hash: Hash, s: State, a: Action, s': State)
    requires LocksExclusive(hash, s) && Step(hash, s, a, s')
    ensures LocksExclusive(hash, s')
  {
    match a
    case Begin(_, _) => MarkExclusive(hash, s, a, s');
    case Check(_) => MarkExclusive(hash, s, a, s');
    case Read(_) => MarkExclusive(hash, s, a, s');
    case Number(_) => MarkExclusive(hash, s, a, s');
    case Acquire(_) => TakeExclusive(hash, s, a, s');
    case Commit(_) => ReleaseExclusive(hash, s, a, s');
    case End(_) => ReleaseExclusive(hash, s, a, s');
    case RecordRun(_, _) => assert s'.txs == s.txs;
  }

  lemma {:induction false} RunLocksExclusive(hash: Hash, tr: Trace)
    requires Run(hash, tr)
    ensures LocksExclusive(hash, Last(tr))
  {
    if tr.Then? {
      RunLocksExclusive(hash, tr.before);
      StepLocksExclusive(hash, Last(tr.before), tr.action, tr.state);
    }
  }
}
