/** What each operation of the chat store does to its four maps, as relations and
    functions on values. Operations that scan a map in arbitrary order are
    specified by a relation, the others by a function. */
module StoreSpec {
  import opened Strings
  import opened ChatTypes

  datatype Store = Store(
    threads: map<Key, Thread>,
    messages: map<Key, seq<Message>>,
    turns: map<string, Turn>,
    standing: map<Key, string>)

  const EMPTY := Store(map[], map[], map[], map[])

  function Transcript(s: Store, k: Key): seq<Message> {
    if k in s.messages then s.messages[k] else []
  }

  /** Every map entry is filed under its own identity and refers to an existing thread. */
  ghost predicate WellFormed(s: Store) {
    && s.messages.Keys == s.threads.Keys
    && (forall k :: k in s.threads ==>
          (s.threads[k].namespace, s.threads[k].id) == k && k.1 != "")
    && (forall id :: id in s.turns ==> s.turns[id].id == id && KeyOf(s.turns[id]) in s.threads)
    && (forall p :: p in s.standing ==>
          && (p.0, s.standing[p]) in s.threads
          && s.threads[(p.0, s.standing[p])].profile == p.1)
  }

  /** Replacing one turn by another version of itself keeps the store well formed. */
  lemma ReplaceTurnWellFormed(s: Store, t: Turn)
    requires WellFormed(s) && KeyOf(t) in s.threads
    ensures WellFormed(s.(turns := s.turns[t.id := t]))
  {
  }

  lemma SetTranscriptWellFormed(s: Store, k: Key, ms: seq<Message>, updatedAt: int)
    requires WellFormed(s) && k in s.threads
    ensures WellFormed(s.(messages := s.messages[k := ms]))
    ensures WellFormed(s.(messages := s.messages[k := ms], threads := s.threads[k := s.threads[k].(updatedAt := updatedAt)]))
  {
    assert s.messages[k := ms].Keys == s.threads.Keys;
    var threads := s.threads[k := s.threads[k].(updatedAt := updatedAt)];
    assert threads.Keys == s.threads.Keys;
    assert forall j :: j in threads ==> threads[j] == s.threads[j].(updatedAt := threads[j].updatedAt);
  }

  lemma NewThreadWellFormed(s: Store, t: Thread)
    requires WellFormed(s) && t.id != "" && (t.namespace, t.id) !in s.threads
    ensures
      var k := (t.namespace, t.id);
      WellFormed(s.(threads := s.threads[k := t], messages := s.messages[k := []]))
  {
  }

  lemma RecordStandingWellFormed(s: Store, k: Key)
    requires WellFormed(s) && k in s.threads
    ensures WellFormed(s.(standing := s.standing[(k.0, s.threads[k].profile) := k.1]))
  {
  }

  // ----- threads and messages -----

  function CreateThread(s: Store, t: Thread, now: int, freshId: string): (Store, Result<Thread>)
    requires freshId != ""
  {
    var n := NormalizeThread(t, now, freshId);
    if n.Err? then (s, n)
    else
      var k := (n.value.namespace, n.value.id);
      if k in s.threads then (s, Err(Invalid))
      else (s.(threads := s.threads[k := n.value], messages := s.messages[k := []]), n)
  }

  /** The first `n` messages of the batch, normalised under the sequence numbers
      that follow `last`. */
  function NormalizeBatch(batch: seq<Message>, n: nat, threadId: string, last: nat, now: int, freshIds: seq<string>)
      : (r: Result<seq<Message>>)
    requires n <= |batch| == |freshIds|
    ensures r.Ok? ==> |r.value| == n
  {
    if n == 0 then Ok([])
    else
      var init := NormalizeBatch(batch, n - 1, threadId, last, now, freshIds);
      if init.Err? then init
      else
        var m := NormalizeMessage(batch[n - 1].(threadId := threadId, sequence := last + n), now, freshIds[n - 1]);
        if m.Err? then Err(m.error) else Ok(init.value + [m.value])
  }

  lemma BatchNext(batch: seq<Message>, n: nat, threadId: string, last: nat, now: int, freshIds: seq<string>)
    requires n < |batch| == |freshIds|
    requires NormalizeBatch(batch, n, threadId, last, now, freshIds).Ok?
    ensures
      var init := NormalizeBatch(batch, n, threadId, last, now, freshIds).value;
      var m := NormalizeMessage(batch[n].(threadId := threadId, sequence := last + n + 1), now, freshIds[n]);
      NormalizeBatch(batch, n + 1, threadId, last, now, freshIds) == if m.Err? then Err(m.error) else Ok(init + [m.value])
  {
  }

  /** The stored batch keeps contents and roles in order, numbered consecutively. */
  lemma {:induction false} BatchEntry(batch: seq<Message>, n: nat, i: nat, threadId: string, last: nat, now: int, freshIds: seq<string>)
    requires i < n <= |batch| == |freshIds|
    requires NormalizeBatch(batch, n, threadId, last, now, freshIds).Ok?
    ensures
      var stored := NormalizeBatch(batch, n, threadId, last, now, freshIds).value[i];
      stored.sequence == last + i + 1 && stored.content == batch[i].content && stored.role == batch[i].role
  {
    BatchNext(batch, n - 1, threadId, last, now, freshIds);
    if i < n - 1 {
      BatchEntry(batch, n - 1, i, threadId, last, now, freshIds);
    }
  }

  /** A refused message refuses every longer prefix of the batch. */
  lemma {:induction false} BatchRefused(batch: seq<Message>, i: nat, n: nat, threadId: string, last: nat, now: int, freshIds: seq<string>)
    requires i <= n <= |batch| == |freshIds|
    requires NormalizeBatch(batch, i, threadId, last, now, freshIds).Err?
    ensures NormalizeBatch(batch, n, threadId, last, now, freshIds) == NormalizeBatch(batch, i, threadId, last, now, freshIds)
  {
    if i < n {
      BatchRefused(batch, i, n - 1, threadId, last, now, freshIds);
    }
  }

  /** The error of the first refused message is the error of the batch. */
  lemma {:induction false} BatchStops(batch: seq<Message>, i: nat, threadId: string, last: nat, now: int, freshIds: seq<string>)
    requires i < |batch| == |freshIds|
    requires NormalizeBatch(batch, i, threadId, last, now, freshIds).Ok?
    requires NormalizeMessage(batch[i].(threadId := threadId, sequence := last + i + 1), now, freshIds[i]).Err?
    ensures NormalizeBatch(batch, |batch|, threadId, last, now, freshIds) ==
      Err(NormalizeMessage(batch[i].(threadId := threadId, sequence := last + i + 1), now, freshIds[i]).error)
  {
    BatchNext(batch, i, threadId, last, now, freshIds);
    BatchRefused(batch, i + 1, |batch|, threadId, last, now, freshIds);
  }

  /** Appends a batch to an existing thread, all of it or none of it. */
  function AppendTo(s: Store, k: Key, batch: seq<Message>, now: int, freshIds: seq<string>)
      : (Store, Result<seq<Message>>)
    requires |freshIds| == |batch|
    requires k in s.threads
  {
    var stored := NormalizeBatch(batch, |batch|, k.1, |Transcript(s, k)|, now, freshIds);
    if stored.Err? then (s, stored)
    else (s.(
      threads := s.threads[k := s.threads[k].(updatedAt := now)],
      messages := s.messages[k := Transcript(s, k) + stored.value]), stored)
  }

  /** An append whose thread was looked up as `target`. */
  function AppendMessages(s: Store, target: Result<Key>, batch: seq<Message>, now: int, freshIds: seq<string>)
      : (Store, Result<seq<Message>>)
    requires |freshIds| == |batch|
  {
    if target.Err? then (s, Err(target.error))
    else if |batch| == 0 || |batch| > MAX_APPEND_BATCH then (s, Err(Invalid))
    else if target.value !in s.threads then (s, Err(NotFound))
    else AppendTo(s, target.value, batch, now, freshIds)
  }

  /** The first message carrying an ID. */
  function Find(ms: seq<Message>, id: string): (r: Option<nat>)
    ensures r.Some? ==> r.value < |ms| && ms[r.value].id == id && forall j :: 0 <= j < r.value ==> ms[j].id != id
    ensures r.None? ==> forall j :: 0 <= j < |ms| ==> ms[j].id != id
  {
    if ms == [] then None
    else if ms[0].id == id then Some(0)
    else
      var r := Find(ms[1..], id);
      if r.None? then
        assert forall j :: 1 <= j < |ms| ==> ms[j] == ms[1..][j - 1];
        None
      else
        assert forall j :: 1 <= j <= r.value + 1 ==> ms[j] == ms[1..][j - 1];
        Some(r.value + 1)
  }

  function RepairAssistantReply(s: Store, namespace: string, original: Message, content: string, format: string)
      : (Store, Result<Message>)
  {
    var repaired := RepairedAssistant(original, content, format);
    if repaired.Err? then (s, repaired)
    else
      var k := (namespace, original.threadId);
      var ms := Transcript(s, k);
      var at := Find(ms, original.id);
      if at.None? then (s, Err(RequestConflict))
      else
        var current := ms[at.value];
        if current.role != AssistantRole || current.content != original.content || current.metadata != original.metadata
        then (s, Err(RequestConflict))
        else
          var next := current.(content := repaired.value.content, metadata := repaired.value.metadata);
          (s.(messages := s.messages[k := ms[at.value := next]]), Ok(next))
  }

  // ----- turns -----

  datatype Accepted = Accepted(turn: Turn, message: Message, thread: Thread)

  /** `o` was accepted under the same thread and request ID as `t`, and its user
      message is in the transcript. */
  predicate Replays(s: Store, o: Turn, t: Turn) {
    && o.threadId == t.threadId && o.requestId == t.requestId
    && Find(Transcript(s, KeyOf(t)), o.userMessageId).Some?
  }

  function UserMessage(s: Store, o: Turn, t: Turn): Message
    requires Replays(s, o, t)
  {
    Transcript(s, KeyOf(t))[Find(Transcript(s, KeyOf(t)), o.userMessageId).value]
  }

  ghost predicate HasReplay(s: Store, t: Turn) {
    exists id :: id in s.turns && Replays(s, s.turns[id], t)
  }

  predicate Blocks(o: Turn, t: Turn) {
    || (KeyOf(o) == KeyOf(t) && Active(o))
    || (!t.deferred && Conflicts(o, t) && Busy(o))
  }

  ghost predicate Blocked(s: Store, t: Turn) {
    exists id :: id in s.turns && Blocks(s.turns[id], t)
  }

  function Accept(s: Store, t: Turn, m: Message): (Store, Accepted)
    requires KeyOf(t) in s.threads
  {
    var k := KeyOf(t);
    var stored := m.(sequence := |Transcript(s, k)| + 1);
    var thread := s.threads[k].(updatedAt := t.createdAt);
    (s.(
      threads := s.threads[k := thread],
      messages := s.messages[k := Transcript(s, k) + [stored]],
      turns := s.turns[t.id := t]),
     Accepted(t, stored, thread))
  }

  lemma AcceptWellFormed(s: Store, t: Turn, m: Message)
    requires WellFormed(s) && KeyOf(t) in s.threads
    ensures WellFormed(Accept(s, t, m).0)
  {
  }

  /** The outcome of queuing the prepared turn `t` with its prepared user message. */
  ghost predicate QueuePrepared(s: Store, t: Turn, m: Message, s': Store, r: Result<Accepted>) {
    if KeyOf(t) !in s.threads then s' == s && r == Err(NotFound)
    else if HasReplay(s, t) then
      && s' == s
      && exists id :: id in s.turns && Replays(s, s.turns[id], t) &&
           var user := UserMessage(s, s.turns[id], t);
           r == if user.content != m.content then Err(RequestConflict)
                else Ok(Accepted(s.turns[id], user, s.threads[KeyOf(t)]))
    else if Blocked(s, t) then s' == s && r == Err(TurnActive)
    else if t.expectedSequence.Some? && t.expectedSequence.value != |Transcript(s, KeyOf(t))| then
      s' == s && r == Err(ConversationChanged)
    else
      s' == Accept(s, t, m).0 && r == Ok(Accept(s, t, m).1)
  }

  ghost predicate QueueTurn(
    s: Store, t: Turn, m: Message, now: int, freshTurnId: string, freshMessageId: string, s': Store, r: Result<Accepted>)
  {
    var p := PrepareTurn(t, m, now, freshTurnId, freshMessageId);
    if p.Err? then s' == s && r == Err(p.error)
    else QueuePrepared(s, p.value.0, p.value.1, s', r)
  }

  /** Appends the closing message and takes over the outcome of `t`. */
  function Finish(s: Store, t: Turn, m: Message): Store
    requires t.id in s.turns
  {
    s.(
      messages := s.messages[KeyOf(t) := Transcript(s, KeyOf(t)) + [m]],
      turns := s.turns[t.id := s.turns[t.id].(status := t.status, error := t.error, delegates := t.delegates)])
  }

  function CompleteTurn(s: Store, t: Turn, m: Message, now: int, freshMessageId: string): (Store, Result<()>)
  {
    if t.id !in s.turns then (s, Err(NotFound))
    else
      var cur := s.turns[t.id];
      if !Active(cur) then (s, Ok(()))
      else if !SameTurnAttempt(cur, t) then (s, Err(RequestConflict))
      else if Active(t) then (s, Err(Invalid))
      else
        var k := KeyOf(t);
        var n := NormalizeMessage(
          m.(threadId := t.threadId, sequence := |Transcript(s, k)| + 1), now, freshMessageId);
        if n.Err? then (s, Err(n.error))
        else (Finish(s, t, n.value), Ok(()))
  }

  function RecordRun(s: Store, t: Turn, uid: string): (Store, Result<()>) {
    if t.id !in s.turns then (s, Err(NotFound))
    else
      var cur := s.turns[t.id];
      if !Active(cur) || !SameTurnAttempt(cur, t) then (s, Err(RequestConflict))
      else if cur.runUid != "" && cur.runUid != uid then (s, Err(Invalid))
      else (s.(turns := s.turns[t.id := cur.(runUid := uid)]), Ok(()))
  }

  ghost predicate ResourcesBusy(s: Store, t: Turn) {
    exists id :: id in s.turns && Conflicts(s.turns[id], t) && Busy(s.turns[id])
  }

  ghost function ActivateTurn(s: Store, t: Turn): (Store, Result<bool>) {
    if t.id !in s.turns then (s, Err(NotFound))
    else
      var cur := s.turns[t.id];
      if cur.status != Waiting then (s, Ok(Active(cur)))
      else if ResourcesBusy(s, cur) then (s, Ok(false))
      else (s.(turns := s.turns[t.id := cur.(status := Queued)]), Ok(true))
  }

  function RetryTurn(s: Store, expected: Turn, retry: TurnRetry, now: int): (Store, Result<Turn>) {
    if expected.id !in s.turns then (s, Err(NotFound))
    else
      var next := PrepareTurnRetry(s.turns[expected.id], expected, retry, now);
      if next.Err? then (s, next)
      else (s.(turns := s.turns[next.value.id := next.value]), next)
  }

  // ----- standing conversations -----

  /** `a` is preferred over `b`: newer, or as new with the smaller ID. */
  predicate Preferred(a: Thread, b: Thread) {
    a.updatedAt > b.updatedAt || (a.updatedAt == b.updatedAt && LexLess(a.id, b.id))
  }

  predicate Candidate(t: Thread, seed: Thread) {
    t.namespace == seed.namespace && t.profile == seed.profile && StandingEligible(t)
  }

  ghost predicate HasCandidate(s: Store, seed: Thread) {
    exists k :: k in s.threads && Candidate(s.threads[k], seed)
  }

  ghost predicate BestCandidate(s: Store, seed: Thread, k: Key) {
    && k in s.threads && Candidate(s.threads[k], seed)
    && forall j :: j in s.threads && j != k && Candidate(s.threads[j], seed) ==> Preferred(s.threads[k], s.threads[j])
  }

  /** The outcome of asking for the standing conversation of a normalised seed:
      the recorded one, else the best eligible thread, else a new one. */
  ghost predicate EnsurePrepared(s: Store, seed: Thread, s': Store, r: Result<(Thread, bool)>) {
    var p := (seed.namespace, seed.profile);
    if p in s.standing && (p.0, s.standing[p]) in s.threads then
      s' == s && r == Ok((s.threads[(p.0, s.standing[p])], false))
    else if HasCandidate(s, seed) then
      exists k :: BestCandidate(s, seed, k) &&
        s' == s.(standing := s.standing[p := s.threads[k].id]) && r == Ok((s.threads[k], false))
    else
      var k := (seed.namespace, seed.id);
      if k in s.threads then s' == s && r == Err(Invalid)
      else
        && s' == s.(threads := s.threads[k := seed], messages := s.messages[k := []], standing := s.standing[p := seed.id])
        && r == Ok((seed, true))
  }

  ghost predicate EnsureStandingThread(
    s: Store, seed: Thread, now: int, freshId: string, s': Store, r: Result<(Thread, bool)>)
    requires freshId != ""
  {
    var n := NormalizeThread(seed, now, freshId);
    if n.Err? then s' == s && r == Err(n.error)
    else if !StandingEligible(n.value) then s' == s && r == Err(Invalid)
    else EnsurePrepared(s, n.value, s', r)
  }
}
