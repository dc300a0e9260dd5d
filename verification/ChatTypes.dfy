/** Threads, messages and turns of the standing chat, with the pure rules both
    stores share: normalisation, attempt identity, retry and resource sharing. */
module ChatTypes {
  import opened Strings

  const MAX_MESSAGE_BYTES := 64 * 1024
  const MAX_APPEND_BATCH := 16
  const MAX_TURN_RETRIES := 2

  datatype Error = NotFound | Invalid | TurnActive | ConversationChanged | RequestConflict

  datatype Result<+T> = Ok(value: T) | Err(error: Error)

  /** A JSON object, or text that does not decode to one. */
  datatype Metadata = Malformed | Fields(fields: map<string, string>)

  datatype Mode = Persona | Fleet | UnsetMode | UnknownMode

  /** Times are integers; 0 is the zero time. */
  datatype Thread = Thread(
    id: string, namespace: string, profile: string, mode: Mode,
    createdAt: int, updatedAt: int, createdBy: string, metadata: Metadata)

  datatype Role = SystemRole | UserRole | AssistantRole | ToolRole | UnknownRole

  datatype Message = Message(
    id: string, threadId: string, role: Role, content: string,
    createdAt: int, sequence: int, metadata: Metadata)

  datatype Status = Waiting | Queued | Running | Finished(outcome: string)

  datatype TurnAttempt = TurnAttempt(runName: string, runUid: string, error: string, completedAt: int)

  datatype TurnRetry = TurnRetry(runName: string, runJson: string, reason: string, at: int)

  datatype Delegate = Delegate(profile: string, threadId: string, turnId: string, runName: string, status: string)

  datatype Turn = Turn(
    id: string, namespace: string, threadId: string, requestId: string,
    profile: string, lockKeys: seq<string>, deferred: bool, expectedSequence: Option<int>,
    runName: string, runUid: string, runJson: string,
    status: Status, error: string, delegates: seq<Delegate>,
    userMessageId: string, createdAt: int,
    retryCount: int, retryAt: Option<int>, recoveryReason: string, attempts: seq<TurnAttempt>)

  /** Threads and messages are indexed by namespace and thread ID. */
  type Key = (string, string)

  function KeyOf(t: Turn): Key {
    (t.namespace, t.threadId)
  }

  predicate Active(t: Turn) {
    t.status == Waiting || t.status == Queued || t.status == Running
  }

  /** A turn that holds its profile and its lock keys. */
  predicate Busy(t: Turn) {
    t.status == Queued || t.status == Running
  }

  predicate SharedTurnResource(a: Turn, b: Turn) {
    a.profile == b.profile || exists k :: k in a.lockKeys && k in b.lockKeys
  }

  predicate Conflicts(a: Turn, b: Turn) {
    a.namespace == b.namespace && SharedTurnResource(a, b)
  }

  lemma ConflictsSymmetric(a: Turn, b: Turn)
    requires Conflicts(a, b)
    ensures Conflicts(b, a)
  {
  }

  /** The nested search as the store runs it. */
  method FindSharedTurnResource(a: Turn, b: Turn) returns (shared: bool)
    ensures shared <==> SharedTurnResource(a, b)
  {
    if a.profile == b.profile {
      return true;
    }
    for i := 0 to |a.lockKeys|
      invariant forall x :: x in a.lockKeys[..i] ==> x !in b.lockKeys
    {
      for j := 0 to |b.lockKeys|
        invariant a.lockKeys[i] !in b.lockKeys[..j]
      {
        if a.lockKeys[i] == b.lockKeys[j] {
          assert a.lockKeys[i] in a.lockKeys && a.lockKeys[i] in b.lockKeys;
          return true;
        }
      }
    }
    return false;
  }

  /** `current` is the attempt that `snapshot` was taken from. */
  predicate SameTurnAttempt(current: Turn, snapshot: Turn) {
    && current.id == snapshot.id
    && current.namespace == snapshot.namespace
    && current.threadId == snapshot.threadId
    && current.runName == snapshot.runName
    && current.retryCount == snapshot.retryCount
    && (snapshot.runUid == "" || current.runUid == snapshot.runUid)
  }

  function PrepareTurnRetry(current: Turn, expected: Turn, retry: TurnRetry, now: int): (r: Result<Turn>)
    ensures r.Ok? ==>
      && Active(current) && SameTurnAttempt(current, expected)
      && current.retryCount < MAX_TURN_RETRIES
      && r.value.status == Queued && r.value.runUid == "" && r.value.runName != current.runName
  {
    if !Active(current) || !SameTurnAttempt(current, expected) then Err(RequestConflict)
    else if
      || current.retryCount >= MAX_TURN_RETRIES || retry.runName == "" || retry.runName == current.runName
      || retry.runJson == "" || retry.reason == "" || retry.at == 0
    then Err(Invalid)
    else
      var receipt := TurnAttempt(current.runName, current.runUid, retry.reason, now);
      Ok(current.(
        attempts := current.attempts + [receipt],
        retryCount := current.retryCount + 1,
        retryAt := Some(retry.at),
        recoveryReason := retry.reason,
        runName := retry.runName, runUid := "", runJson := retry.runJson,
        status := Queued, error := ""))
  }

  function NormalizeMetadata(m: Metadata): (r: Result<Metadata>)
    ensures r.Ok? ==> r.value.Fields?
  {
    if m.Malformed? then Err(Invalid) else Ok(m)
  }

  function NormalizeThread(t: Thread, now: int, freshId: string): (r: Result<Thread>)
    requires freshId != ""
    ensures r.Ok? ==> r.value.id != "" && r.value.namespace != "" && r.value.metadata.Fields?
    ensures r.Ok? ==> r.value.id == freshId || IsUuid(r.value.id)
  {
    var n := t.(
      id := Trim(t.id), namespace := Trim(t.namespace), profile := Trim(t.profile),
      createdBy := Trim(t.createdBy), mode := if t.mode.UnsetMode? then Persona else t.mode);
    if n.mode.UnknownMode? || n.namespace == "" || n.createdBy == "" then Err(Invalid)
    else if n.mode.Persona? && n.profile == "" && Trim(HarnessProfile(t)) == "" then Err(Invalid)
    else if NormalizeMetadata(n.metadata).Err? then Err(Invalid)
    else if n.id != "" && !IsUuid(n.id) then Err(Invalid)
    else
      var created := if n.createdAt == 0 then now else n.createdAt;
      Ok(n.(
        id := if n.id == "" then freshId else n.id,
        createdAt := created,
        updatedAt := if n.updatedAt == 0 then created else n.updatedAt))
  }

  function NormalizeMessage(m: Message, now: int, freshId: string): (r: Result<Message>)
    ensures r.Ok? ==>
      && (r.value.id == freshId || IsUuid(r.value.id)) && r.value.sequence == m.sequence >= 1 && r.value.content == m.content
      && r.value.role == m.role && r.value.metadata.Fields?
      && r.value.threadId == Trim(m.threadId)
  {
    var id := Trim(m.id);
    var threadId := Trim(m.threadId);
    if m.role.UnknownRole? || Trim(m.content) == "" || |m.content| > MAX_MESSAGE_BYTES then Err(Invalid)
    else if !IsUuid(threadId) || m.sequence < 1 || NormalizeMetadata(m.metadata).Err? then Err(Invalid)
    else if id != "" && !IsUuid(id) then Err(Invalid)
    else Ok(m.(
      id := if id == "" then freshId else id,
      threadId := threadId,
      createdAt := if m.createdAt == 0 then now else m.createdAt))
  }

  /** Which messages are stored, and which are refused. */
  lemma MessageAccepted(m: Message, now: int, freshId: string)
    ensures NormalizeMessage(m, now, freshId).Ok? <==>
      && m.role != UnknownRole && Trim(m.content) != "" && |m.content| <= MAX_MESSAGE_BYTES
      && IsUuid(Trim(m.threadId)) && m.sequence >= 1 && m.metadata.Fields?
      && (Trim(m.id) == "" || IsUuid(Trim(m.id)))
  {
  }

  /** Normalising a stored message again, at any later time, changes nothing. */
  lemma {:induction false} NormalizeMessageTwice(m: Message, now: int, freshId: string, later: int, otherId: string)
    requires NormalizeMessage(m, now, freshId).Ok? && now != 0
    requires freshId != "" && Trim(freshId) == freshId && IsUuid(freshId)
    ensures NormalizeMessage(NormalizeMessage(m, now, freshId).value, later, otherId) == NormalizeMessage(m, now, freshId)
  {
    TrimTwice(m.id);
    TrimTwice(m.threadId);
  }

  /** The harness profile a thread names in its metadata. */
  function HarnessProfile(t: Thread): string {
    if t.metadata.Fields? && "harnessProfileName" in t.metadata.fields then t.metadata.fields["harnessProfileName"] else ""
  }

  /** Which threads are stored, and which are refused. */
  lemma ThreadAccepted(t: Thread, now: int, freshId: string)
    requires freshId != ""
    ensures NormalizeThread(t, now, freshId).Ok? <==>
      && t.mode != UnknownMode && Trim(t.namespace) != "" && Trim(t.createdBy) != "" && t.metadata.Fields?
      && (t.mode == Fleet || Trim(t.profile) != "" || Trim(HarnessProfile(t)) != "")
      && (Trim(t.id) == "" || IsUuid(Trim(t.id)))
  {
  }

  /** Normalising a stored thread again, at any later time, changes nothing. */
  lemma {:induction false} NormalizeThreadTwice(t: Thread, now: int, freshId: string, later: int, otherId: string)
    requires freshId != "" && otherId != "" && NormalizeThread(t, now, freshId).Ok? && now != 0
    requires Trim(freshId) == freshId && IsUuid(freshId)
    ensures NormalizeThread(NormalizeThread(t, now, freshId).value, later, otherId) == NormalizeThread(t, now, freshId)
  {
    TrimTwice(t.id);
    TrimTwice(t.namespace);
    TrimTwice(t.profile);
    TrimTwice(t.createdBy);
  }

  function NormalizeThreadLookup(namespace: string, id: string): (r: Result<Key>)
    ensures r.Ok? ==> r.value.0 != "" && |r.value.1| == 36
  {
    if Trim(namespace) == "" || ParseUuid(Trim(id)).None? then Err(Invalid)
    else Ok((Trim(namespace), ParseUuid(Trim(id)).value))
  }

  /** Sets the identity, status and user message of a turn before it is queued.
      The caller's retry count and attempts are kept. */
  function PrepareTurn(t: Turn, m: Message, now: int, freshTurnId: string, freshMessageId: string)
      : (r: Result<(Turn, Message)>)
    ensures r.Ok? ==>
      var (t', m') := r.value;
      && KeyOf(t') == KeyOf(t) && t'.requestId == t.requestId && t'.profile == t.profile
      && (forall k :: k in t'.lockKeys <==> k in t.lockKeys)
      && t'.status == (if t.deferred then Waiting else Queued)
      && t'.userMessageId == m'.id && m'.role == UserRole && m'.content == m.content
  {
    if !IsUuid(t.requestId) || NormalizeThreadLookup(t.namespace, t.threadId).Err? then Err(Invalid)
    else
      var n := NormalizeMessage(m.(threadId := t.threadId, sequence := 1, role := UserRole), now, freshMessageId);
      if n.Err? then Err(Invalid)
      else
        assert forall k :: k in SortStrings(t.lockKeys) <==> k in t.lockKeys by {
          forall k { SortStringsMembers(t.lockKeys, k); }
        }
        Ok((t.(
          id := if t.id == "" then freshTurnId else t.id,
          lockKeys := SortStrings(t.lockKeys),
          status := if t.deferred then Waiting else Queued,
          createdAt := now,
          userMessageId := n.value.id), n.value))
  }

  const FORBIDDEN_STANDING_FIELDS := {"harnessProfileName", "sourceThreadId", "sourceTurnId", "sourceProfileName"}

  /** A thread that may become an agent's standing conversation. */
  predicate StandingEligible(t: Thread) {
    t.profile != "" && t.metadata.Fields? && t.metadata.fields.Keys !! FORBIDDEN_STANDING_FIELDS
  }

  function RepairedAssistant(original: Message, content: string, format: string): (r: Result<Message>)
    ensures r.Ok? ==>
      && original.role == AssistantRole
      && r.value == original.(content := content, metadata := r.value.metadata)
      && r.value.metadata.Fields? && original.metadata.Fields?
      && "replyFormat" !in original.metadata.fields
      && r.value.metadata.fields == original.metadata.fields["replyFormat" := format]
  {
    if
      || original.role != AssistantRole || original.id == "" || original.threadId == ""
      || Trim(content) == "" || |content| > MAX_MESSAGE_BYTES || format != "openclaw.payloads/v1"
      || original.metadata.Malformed?
    then Err(Invalid)
    else
      var fields := original.metadata.fields;
      if
        || "backend" !in fields || fields["backend"] != "openClaw" || "replyFormat" in fields
        || "turnId" !in fields || "runName" !in fields
      then Err(Invalid)
      else Ok(original.(content := content, metadata := Fields(fields["replyFormat" := format])))
  }
}
