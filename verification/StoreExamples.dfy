/** A run of the chat store in which the retry of a waiting turn breaks mutual exclusion. */
module StoreExamples {
  import opened Strings
  import opened ChatTypes
  import opened StoreSpec
  import opened StoreRuns
  import opened StoreTheorems

  predicate Dash(i: int) {
    i == 8 || i == 13 || i == 18 || i == 23
  }

  /** A UUID that repeats one digit. */
  function Uuid(c: char): (s: string)
    ensures |s| == 36 && forall i :: 0 <= i < 36 ==> s[i] == if Dash(i) then '-' else c
  {
    seq(36, i => if Dash(i) then '-' else c)
  }

  lemma {:induction false} UuidFrom(c: char, i: nat)
    requires IsHex(c) && i <= 36
    ensures HyphenatedFrom(Uuid(c), i)
    decreases 36 - i
  {
    if i < 36 {
      UuidFrom(c, i + 1);
    }
  }

  lemma UuidParses(c: char)
    requires 'a' <= c <= 'f'
    ensures IsUuid(Uuid(c)) && Trim(Uuid(c)) == Uuid(c)
  {
    UuidFrom(c, 0);
    assert Uuid(c)[0] == c && Uuid(c)[35] == c;
  }

  const THREAD := Thread("", "n", "p", Persona, 0, 0, "user", Fields(map[]))

  const MESSAGE := Message("", "", UserRole, "hello", 0, 0, Fields(map[]))

  const RETRY := TurnRetry("run-1", "{}", "startup deadline", 1)

  /** A turn of the agent `p` on the thread with this UUID. */
  function Request(c: char, deferred: bool): Turn {
    Turn("", "n", Uuid(c), Uuid(c), "p", [], deferred, None, "run-0", "", "{}", Queued, "", [], "", 0, 0, None, "", [])
  }

  function Create(c: char): Op {
    CreateThreadOp(THREAD, 1, Uuid(c))
  }

  function Send(c: char, deferred: bool, id: string): Op {
    QueueOp(Request(c, deferred), MESSAGE, 1, id, id)
  }

  lemma ThreadAccepted(c: char)
    requires 'a' <= c <= 'f'
    ensures NormalizeThread(THREAD, 1, Uuid(c)) ==
      Ok(THREAD.(id := Uuid(c), createdAt := 1, updatedAt := 1))
  {
    assert Trim("") == "" && Trim("n") == "n" && Trim("p") == "p" && Trim("user") == "user";
  }

  /** The turn this request is stored as. */
  predicate StoredAs(t: Turn, c: char, deferred: bool, id: string) {
    t == Request(c, deferred).(
      id := id, status := if deferred then Waiting else Queued, createdAt := 1, userMessageId := t.userMessageId)
  }

  lemma TurnAccepted(c: char, deferred: bool, id: string)
    requires 'a' <= c <= 'f' && id != ""
    ensures var p := Prepared(Send(c, deferred, id)); p.Ok? && StoredAs(p.value.0, c, deferred, id)
  {
    UuidParses(c);
    assert Trim("n") == "n" && Trim("") == "" && Trim("hello") == "hello";
    assert SortStrings([]) == [];
  }

  lemma ThreadCreated(s: Store, c: char) returns (s': Store)
    requires 'a' <= c <= 'f' && ("n", Uuid(c)) !in s.threads
    ensures Step(s, Create(c), s') && s'.threads.Keys == s.threads.Keys + {("n", Uuid(c))} && s'.turns == s.turns
  {
    ThreadAccepted(c);
    s' := CreateThread(s, THREAD, 1, Uuid(c)).0;
    assert |Uuid(c)| == 36 && Legal(Create(c));
  }

  /** Both threads exist. */
  lemma {:induction false} TwoThreads() returns (tr: Trace)
    ensures Run(tr) && Last(tr).threads.Keys == {("n", Uuid('a')), ("n", Uuid('b'))}
    ensures Last(tr).turns == map[]
  {
    assert Uuid('a')[0] != Uuid('b')[0];
    var s := ThreadCreated(Last(Start), 'a');
    var s' := ThreadCreated(s, 'b');
    tr := Then(Then(Start, Create('a'), s), Create('b'), s');
    assert Run(Start) && Run(tr.before);
  }

  /** A turn that no stored turn replays or blocks is stored. */
  lemma Sent(s: Store, c: char, deferred: bool, id: string) returns (s': Store)
    requires 'a' <= c <= 'f' && id != "" && ("n", Uuid(c)) in s.threads
    requires forall i :: i in s.turns ==> s.turns[i].threadId != Uuid(c)
    requires deferred || s.turns == map[]
    ensures Step(s, Send(c, deferred, id), s') && s'.threads.Keys == s.threads.Keys
    ensures id in s'.turns && s'.turns == s.turns[id := s'.turns[id]] && StoredAs(s'.turns[id], c, deferred, id)
  {
    TurnAccepted(c, deferred, id);
    var (t, m) := Prepared(Send(c, deferred, id)).value;
    assert KeyOf(t) == ("n", Uuid(c));
    s' := Accept(s, t, m).0;
    assert QueuePrepared(s, t, m, s', Ok(Accept(s, t, m).1));
    assert QueueTurn(s, Request(c, deferred), MESSAGE, 1, id, id, s', Ok(Accept(s, t, m).1));
  }

  /** The agent works on one turn while another waits for it. */
  lemma {:induction false} OneWaits() returns (tr: Trace)
    ensures Run(tr) && Last(tr).turns.Keys == {"t", "u"}
    ensures StoredAs(Last(tr).turns["t"], 'a', false, "t") && StoredAs(Last(tr).turns["u"], 'b', true, "u")
  {
    var threads := TwoThreads();
    assert Uuid('a')[0] != Uuid('b')[0];
    var queued := Sent(Last(threads), 'a', false, "t");
    var busy := Then(threads, Send('a', false, "t"), queued);
    var waiting := Sent(queued, 'b', true, "u");
    tr := Then(busy, Send('b', true, "u"), waiting);
    assert Run(busy);
  }

  lemma WaitingRetried(s: Store, t: Turn)
    requires t.id in s.turns && s.turns[t.id] == t && t.status == Waiting && t.retryCount == 0 && t.runName == "run-0"
    ensures var (s', r) := RetryTurn(s, t, RETRY, 2);
      r.Ok? && r.value == t.(status := Queued, attempts := r.value.attempts, retryCount := 1, retryAt := Some(1),
        recoveryReason := RETRY.reason, runName := RETRY.runName, runUid := "", runJson := RETRY.runJson, error := "")
      && s'.turns == s.turns[t.id := r.value]
  {
  }

  /** The guard of a retry admits a waiting turn: a run that creates two threads,
      queues a turn, defers one of the same agent and retries it ends with two busy
      turns on one profile. */
  lemma {:induction false} WaitingRetryBreaksExclusion() returns (tr: Trace)
    ensures Run(tr) && !Exclusive(Last(tr))
    ensures tr.Then? && tr.op.RetryOp? && Last(tr.before).turns.Keys == {"t", "u"}
  {
    var before := OneWaits();
    var s := Last(before);
    WaitingRetried(s, s.turns["u"]);
    tr := Then(before, RetryOp(s.turns["u"], RETRY, 2), RetryTurn(s, s.turns["u"], RETRY, 2).0);
    var turns := Last(tr).turns;
    assert Busy(turns["t"]) && Busy(turns["u"]) && Conflicts(turns["t"], turns["u"]);
  }
}
