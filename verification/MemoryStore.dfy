/** The in-process chat store: four maps updated under one mutex. Each method is
    proved to do exactly what `StoreSpec` says, for any map iteration order. */
module MemoryStore {
  import opened Strings
  import opened ChatTypes
  import Spec = StoreSpec

  class MemoryStore {
    var threads: map<Key, Thread>
    var messages: map<Key, seq<Message>>
    var turns: map<string, Turn>
    var standing: map<Key, string>

    ghost function View(): Spec.Store
      reads this
    {
      Spec.Store(threads, messages, turns, standing)
    }

    ghost predicate Valid()
      reads this
    {
      Spec.WellFormed(View())
    }

    constructor ()
      ensures Valid() && View() == Spec.EMPTY
    {
      threads, messages, turns, standing := map[], map[], map[], map[];
    }

    method CreateThread(t: Thread, now: int, freshId: string) returns (r: Result<Thread>)
      requires Valid() && freshId != ""
      modifies this
      ensures Valid()
      ensures (View(), r) == Spec.CreateThread(old(View()), t, now, freshId)
    {
      r := NormalizeThread(t, now, freshId);
      if r.Err? {
        return;
      }
      var k := (r.value.namespace, r.value.id);
      if k in threads {
        return Err(Invalid);
      }
      Spec.NewThreadWellFormed(View(), r.value);
      threads := threads[k := r.value];
      messages := messages[k := []];
    }

    method AppendMessages(namespace: string, threadId: string, batch: seq<Message>, now: int, freshIds: seq<string>)
      returns (r: Result<seq<Message>>)
      requires Valid()
      requires |freshIds| == |batch|
      modifies this
      ensures Valid()
      ensures (View(), r) == Spec.AppendMessages(old(View()), NormalizeThreadLookup(namespace, threadId), batch, now, freshIds)
    {
      var look := NormalizeThreadLookup(namespace, threadId);
      if look.Err? {
        return Err(look.error);
      }
      if |batch| == 0 || |batch| > MAX_APPEND_BATCH {
        return Err(Invalid);
      }
      var k := look.value;
      if k !in threads {
        return Err(NotFound);
      }
      r := AppendTo(k, batch, now, freshIds);
    }

    method AppendTo(k: Key, batch: seq<Message>, now: int, freshIds: seq<string>) returns (r: Result<seq<Message>>)
      requires Valid() && k in threads
      requires |freshIds| == |batch|
      modifies this
      ensures Valid()
      ensures (View(), r) == Spec.AppendTo(old(View()), k, batch, now, freshIds)
    {
      var existing := messages[k];
      r := NormalizeEach(batch, k.1, |existing|, now, freshIds);
      if r.Err? {
        return;
      }
      Spec.SetTranscriptWellFormed(View(), k, existing + r.value, now);
      threads := threads[k := threads[k].(updatedAt := now)];
      messages := messages[k := existing + r.value];
    }

    /** The append loop: a running counter, and nothing stored once one message is refused. */
    static method NormalizeEach(batch: seq<Message>, threadId: string, last: nat, now: int, freshIds: seq<string>)
      returns (r: Result<seq<Message>>)
      requires |freshIds| == |batch|
      ensures r == Spec.NormalizeBatch(batch, |batch|, threadId, last, now, freshIds)
    {
      var next := last;
      var stored: seq<Message> := [];
      for i := 0 to |batch|
        invariant next == last + i
        invariant Spec.NormalizeBatch(batch, i, threadId, last, now, freshIds) == Ok(stored)
      {
        next := next + 1;
        var n := NormalizeMessage(batch[i].(threadId := threadId, sequence := next), now, freshIds[i]);
        if n.Err? {
          Spec.BatchStops(batch, i, threadId, last, now, freshIds);
          return Err(n.error);
        }
        Spec.BatchNext(batch, i, threadId, last, now, freshIds);
        stored := stored + [n.value];
      }
      r := Ok(stored);
    }

    method RepairAssistantReply(namespace: string, original: Message, content: string, format: string)
      returns (r: Result<Message>)
      requires Valid()
      modifies this
      ensures Valid()
      ensures (View(), r) == Spec.RepairAssistantReply(old(View()), namespace, original, content, format)
    {
      r := RepairedAssistant(original, content, format);
      if r.Err? {
        return;
      }
      var k := (namespace, original.threadId);
      var ms := if k in messages then messages[k] else [];
      for i := 0 to |ms|
        invariant forall j :: 0 <= j < i ==> ms[j].id != original.id
      {
        if ms[i].id == original.id {
          var current := ms[i];
          if current.role != AssistantRole || current.content != original.content
             || current.metadata != original.metadata {
            return Err(RequestConflict);
          }
          current := current.(content := r.value.content, metadata := r.value.metadata);
          Spec.SetTranscriptWellFormed(View(), k, ms[i := current], 0);
          messages := messages[k := ms[i := current]];
          return Ok(current);
        }
      }
      r := Err(RequestConflict);
    }

    method QueueTurn(t: Turn, m: Message, now: int, freshTurnId: string, freshMessageId: string)
      returns (r: Result<Spec.Accepted>)
      requires Valid()
      modifies this
      ensures Valid()
      ensures Spec.QueueTurn(old(View()), t, m, now, freshTurnId, freshMessageId, View(), r)
    {
      var p := PrepareTurn(t, m, now, freshTurnId, freshMessageId);
      if p.Err? {
        return Err(p.error);
      }
      r := QueuePrepared(p.value.0, p.value.1);
    }

    method QueuePrepared(t: Turn, m: Message) returns (r: Result<Spec.Accepted>)
      requires Valid()
      modifies this
      ensures Valid()
      ensures Spec.QueuePrepared(old(View()), t, m, View(), r)
    {
      var k := KeyOf(t);
      if k !in threads {
        return Err(NotFound);
      }
      var replay := FindReplay(t);
      if replay.Some? {
        var (o, user) := replay.value;
        if user.content != m.content {
          return Err(RequestConflict);
        }
        return Ok(Spec.Accepted(o, user, threads[k]));
      }
      var blocked := IsBlocked(t);
      if blocked {
        return Err(TurnActive);
      }
      if t.expectedSequence.Some? && t.expectedSequence.value != |messages[k]| {
        return Err(ConversationChanged);
      }
      r := Accept(t, m);
    }

    method Accept(t: Turn, m: Message) returns (r: Result<Spec.Accepted>)
      requires Valid() && KeyOf(t) in threads
      modifies this
      ensures Valid()
      ensures (View(), r) == (Spec.Accept(old(View()), t, m).0, Ok(Spec.Accept(old(View()), t, m).1))
    {
      Spec.AcceptWellFormed(View(), t, m);
      var k := KeyOf(t);
      var stored := m.(sequence := |messages[k]| + 1);
      messages := messages[k := messages[k] + [stored]];
      turns := turns[t.id := t];
      var thread := threads[k].(updatedAt := t.createdAt);
      threads := threads[k := thread];
      r := Ok(Spec.Accepted(t, stored, thread));
    }

    /** The scan for an earlier turn with the same request ID. */
    method FindReplay(t: Turn) returns (r: Option<(Turn, Message)>)
      ensures r.Some? <==> Spec.HasReplay(View(), t)
      ensures r.Some? ==> exists id ::
        id in turns && Spec.Replays(View(), turns[id], t) && r.value == (turns[id], Spec.UserMessage(View(), turns[id], t))
    {
      var todo := turns.Keys;
      var ms := if KeyOf(t) in messages then messages[KeyOf(t)] else [];
      while todo != {}
        invariant todo <= turns.Keys
        invariant forall id :: id in turns && id !in todo ==> !Spec.Replays(View(), turns[id], t)
      {
        var id :| id in todo;
        var o := turns[id];
        if o.threadId == t.threadId && o.requestId == t.requestId {
          for i := 0 to |ms|
            invariant forall j :: 0 <= j < i ==> ms[j].id != o.userMessageId
          {
            if ms[i].id == o.userMessageId {
              assert Spec.Replays(View(), turns[id], t);
              return Some((o, ms[i]));
            }
          }
        }
        todo := todo - {id};
      }
      r := None;
    }

    /** The scan for a turn that keeps `t` out of the queue. */
    method IsBlocked(t: Turn) returns (r: bool)
      ensures r <==> Spec.Blocked(View(), t)
    {
      var todo := turns.Keys;
      while todo != {}
        invariant todo <= turns.Keys
        invariant forall id :: id in turns && id !in todo ==> !Spec.Blocks(turns[id], t)
      {
        var id :| id in todo;
        var o := turns[id];
        var shared := FindSharedTurnResource(o, t);
        if o.namespace == t.namespace &&
           ((o.threadId == t.threadId && Active(o)) || (!t.deferred && shared && Active(o) && o.status != Waiting)) {
          assert Spec.Blocks(turns[id], t);
          return true;
        }
        todo := todo - {id};
      }
      r := false;
    }

    method CompleteTurn(t: Turn, m0: Message, now: int, freshMessageId: string) returns (r: Result<()>)
      requires Valid()
      modifies this
      ensures Valid()
      ensures (View(), r) == Spec.CompleteTurn(old(View()), t, m0, now, freshMessageId)
    {
      if t.id !in turns {
        return Err(NotFound);
      }
      var cur := turns[t.id];
      if !Active(cur) {
        return Ok(());
      }
      if !SameTurnAttempt(cur, t) {
        return Err(RequestConflict);
      }
      if Active(t) {
        return Err(Invalid);
      }
      var k := KeyOf(t);
      var n := NormalizeMessage(m0.(threadId := t.threadId, sequence := |messages[k]| + 1), now, freshMessageId);
      if n.Err? {
        return Err(n.error);
      }
      Finish(t, n.value);
      r := Ok(());
    }

    method Finish(t: Turn, m: Message)
      requires Valid() && t.id in turns && KeyOf(turns[t.id]) == KeyOf(t)
      modifies this
      ensures Valid()
      ensures View() == Spec.Finish(old(View()), t, m)
    {
      var k := KeyOf(t);
      Spec.SetTranscriptWellFormed(View(), k, messages[k] + [m], 0);
      messages := messages[k := messages[k] + [m]];
      var cur := turns[t.id].(status := t.status, error := t.error, delegates := t.delegates);
      Spec.ReplaceTurnWellFormed(View(), cur);
      turns := turns[t.id := cur];
    }

    method RecordRun(t: Turn, uid: string) returns (r: Result<()>)
      requires Valid()
      modifies this
      ensures Valid()
      ensures (View(), r) == Spec.RecordRun(old(View()), t, uid)
    {
      if t.id !in turns {
        return Err(NotFound);
      }
      var cur := turns[t.id];
      if !Active(cur) || !SameTurnAttempt(cur, t) {
        return Err(RequestConflict);
      }
      if cur.runUid != "" && cur.runUid != uid {
        return Err(Invalid);
      }
      turns := turns[t.id := cur.(runUid := uid)];
      r := Ok(());
    }

    method ActivateTurn(t: Turn) returns (r: Result<bool>)
      requires Valid()
      modifies this
      ensures Valid()
      ensures (View(), r) == Spec.ActivateTurn(old(View()), t)
    {
      if t.id !in turns {
        return Err(NotFound);
      }
      var cur := turns[t.id];
      if cur.status != Waiting {
        return Ok(Active(cur));
      }
      var busy := AreResourcesBusy(cur);
      if busy {
        return Ok(false);
      }
      turns := turns[t.id := cur.(status := Queued)];
      r := Ok(true);
    }

    /** The scan for a busy turn that shares a resource with `t`. */
    method AreResourcesBusy(t: Turn) returns (r: bool)
      ensures r <==> Spec.ResourcesBusy(View(), t)
    {
      var todo := turns.Keys;
      while todo != {}
        invariant todo <= turns.Keys
        invariant forall id :: id in turns && id !in todo ==> !(Conflicts(turns[id], t) && Busy(turns[id]))
      {
        var id :| id in todo;
        var o := turns[id];
        var shared := FindSharedTurnResource(o, t);
        if o.namespace == t.namespace && shared && Active(o) && o.status != Waiting {
          assert Conflicts(turns[id], t);
          return true;
        }
        todo := todo - {id};
      }
      r := false;
    }

    method RetryTurn(expected: Turn, retry: TurnRetry, now: int) returns (r: Result<Turn>)
      requires Valid()
      modifies this
      ensures Valid()
      ensures (View(), r) == Spec.RetryTurn(old(View()), expected, retry, now)
    {
      if expected.id !in turns {
        return Err(NotFound);
      }
      r := PrepareTurnRetry(turns[expected.id], expected, retry, now);
      if r.Err? {
        return;
      }
      turns := turns[r.value.id := r.value];
    }

    method EnsureStandingThread(seed: Thread, now: int, freshId: string) returns (r: Result<(Thread, bool)>)
      requires Valid() && freshId != ""
      modifies this
      ensures Valid()
      ensures Spec.EnsureStandingThread(old(View()), seed, now, freshId, View(), r)
    {
      var n := NormalizeThread(seed, now, freshId);
      if n.Err? {
        return Err(n.error);
      }
      if !StandingEligible(n.value) {
        return Err(Invalid);
      }
      r := EnsurePrepared(n.value);
    }

    method EnsurePrepared(seed: Thread) returns (r: Result<(Thread, bool)>)
      requires Valid() && seed.id != ""
      modifies this
      ensures Valid()
      ensures Spec.EnsurePrepared(old(View()), seed, View(), r)
    {
      var p := (seed.namespace, seed.profile);
      if p in standing && standing[p] != "" {
        return Ok((threads[(p.0, standing[p])], false));
      }
      var chosen := ChooseStanding(seed);
      if chosen.Some? {
        Spec.RecordStandingWellFormed(View(), (chosen.value.namespace, chosen.value.id));
        standing := standing[p := chosen.value.id];
        return Ok((chosen.value, false));
      }
      var k := (seed.namespace, seed.id);
      if k in threads {
        return Err(Invalid);
      }
      Spec.NewThreadWellFormed(View(), seed);
      threads := threads[k := seed];
      messages := messages[k := []];
      Spec.RecordStandingWellFormed(View(), k);
      standing := standing[p := seed.id];
      r := Ok((seed, true));
    }

    /** The scan for the newest eligible thread, smallest ID first among equals. */
    method ChooseStanding(seed: Thread) returns (chosen: Option<Thread>)
      requires Valid()
      ensures chosen.Some? <==> Spec.HasCandidate(View(), seed)
      ensures chosen.Some? ==>
        var k := (chosen.value.namespace, chosen.value.id);
        Spec.BestCandidate(View(), seed, k) && threads[k] == chosen.value
    {
      chosen := None;
      var todo := threads.Keys;
      while todo != {}
        invariant todo <= threads.Keys
        invariant chosen.None? ==>
          forall j :: j in threads && j !in todo ==> !Spec.Candidate(threads[j], seed)
        invariant chosen.Some? ==>
          var k := (chosen.value.namespace, chosen.value.id);
          && k in threads && k !in todo && threads[k] == chosen.value && Spec.Candidate(chosen.value, seed)
          && forall j :: j in threads && j !in todo && j != k && Spec.Candidate(threads[j], seed) ==>
               Spec.Preferred(chosen.value, threads[j])
      {
        var k :| k in todo;
        var c := threads[k];
        if Spec.Candidate(c, seed) {
          if chosen.None? || Spec.Preferred(c, chosen.value) {
            if chosen.Some? {
              PreferredOverAll(c, chosen.value, seed, todo);
            }
            chosen := Some(c);
          } else {
            LexTotal(c.id, chosen.value.id);
          }
        }
        todo := todo - {k};
      }
    }

    lemma PreferredOverAll(c: Thread, best: Thread, seed: Thread, todo: set<Key>)
      requires Valid() && Spec.Preferred(c, best)
      requires forall j :: j in threads && j !in todo && j != (best.namespace, best.id) && Spec.Candidate(threads[j], seed) ==>
        Spec.Preferred(best, threads[j])
      ensures forall j :: j in threads && j !in todo && j != (best.namespace, best.id) && Spec.Candidate(threads[j], seed) ==>
        Spec.Preferred(c, threads[j])
    {
      forall j | j in threads && j !in todo && j != (best.namespace, best.id) && Spec.Candidate(threads[j], seed)
        ensures Spec.Preferred(c, threads[j])
      {
        PreferredTransitive(c, best, threads[j]);
      }
    }
  }

  lemma PreferredTransitive(a: Thread, b: Thread, c: Thread)
    requires Spec.Preferred(a, b) && Spec.Preferred(b, c)
    ensures Spec.Preferred(a, c)
  {
    if a.updatedAt == b.updatedAt == c.updatedAt {
      LexTransitive(a.id, b.id, c.id);
      if a.id == c.id {
        LexAntisymmetric(a.id, b.id);
      }
    }
  }
}
