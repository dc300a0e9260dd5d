/** What resolving promises over every run: quiet and hold periods have passed, the
    responder has finished, sequences only grow, and each has one responder. Reports
    may arrive at any time; what a result needs beyond that, it says. */
module ResolutionTheorems {
  import opened Strings
  import opened AgentRuns
  import opened SituationBuffer
  import opened SituationReconcile
  import opened ResolutionRuns

  // ----- the invariant -----

  /** The quiet deadline is the one the last report set. */
  ghost predicate Timed(s: Status, last: Option<Report>, clock: int) {
    s.events != [] ==>
      && s.sequence > 0 && last.Some? && last.value.at <= clock
      && s.lastEventAt == Some(last.value.at) && s.quietUntil == Some(last.value.at + last.value.quiet)
  }

  ghost predicate Quiet(s: Status, clock: int) {
    s.quietUntil.Some? && s.quietUntil.value <= clock
  }

  ghost predicate HoldOver(s: Status, clock: int) {
    s.events != [] && (s.holdUntil.Some? ==> s.holdUntil.value <= clock)
  }

  ghost predicate Elapsed(s: Status, clock: int) {
    Quiet(s, clock) && HoldOver(s, clock)
  }

  /** An observed pull request has a hold that ends after it was observed. */
  ghost predicate Held(s: Status) {
    && (s.pullRequest != "" ==> s.holdObservedAt.Some?)
    && (s.holdObservedAt.Some? <==> s.holdUntil.Some?)
    && (s.holdUntil.Some? ==> s.holdObservedAt.value < s.holdUntil.value)
  }

  ghost predicate Known(s: Status, uids: set<string>) {
    s.responder.Some? ==> Established(s.responder.value) && s.responder.value.uid in uids
  }

  /** What holds of a status read at any time. */
  ghost predicate StatusSound(s: Status, uids: set<string>) {
    s.sequence >= 0 && (s.events != [] ==> s.sequence > 0) && Held(s) && Known(s, uids)
  }

  /** A status that a reconcile answers and decides on. */
  predicate Live(s: Status) {
    s.events != [] && s.phase != Resolved
  }

  predicate SameResponse(a: Status, b: Status) {
    && a.responder == b.responder && a.pullRequest == b.pullRequest
    && a.holdObservedAt == b.holdObservedAt && a.holdUntil == b.holdUntil
  }

  /** Reports since a live copy was read stay in its sequence and leave its responder
      and hold alone. */
  ghost predicate Follows(copy: Status, s: Status) {
    Live(copy) ==> Live(s) && s.sequence == copy.sequence && SameResponse(s, copy)
  }

  /** The recorded responder, if that very run still exists, has finished. */
  ghost predicate Finished(s: Status, runs: map<RunName, AgentRun>) {
    s.responder.Some? ==>
      var r := s.responder.value;
      r.name in runs && runs[r.name].uid == r.uid ==> Terminal(runs[r.name].phase)
  }

  /** What a reconcile may change in the status it read. */
  ghost predicate Decision(copy: Status, updated: Status, now: int) {
    && updated == copy.(
         phase := updated.phase, resolvedAt := updated.resolvedAt, responder := updated.responder,
         pullRequest := updated.pullRequest, holdObservedAt := updated.holdObservedAt, holdUntil := updated.holdUntil)
    && (updated.phase == Resolved ==> Elapsed(updated, now))
    && Held(updated)
    && (copy.responder.Some? ==> updated.responder == copy.responder)
    && (copy.holdObservedAt.Some? ==> updated.holdObservedAt == copy.holdObservedAt && updated.holdUntil == copy.holdUntil)
    && (!Live(copy) ==> SameResponse(updated, copy))
  }

  ghost predicate Answered(copy: Situation, updated: Status, runs: map<RunName, AgentRun>) {
    updated.phase == Resolved && copy.status.phase != Resolved && copy.enabled ==>
      updated.responder.Some? && Finished(updated, runs)
  }

  ghost predicate WorkerSound(w: World) {
    match w.worker
    case Idle => true
    case Loaded(copy, now) =>
      && now <= w.clock && StatusSound(copy.status, w.uids) && Follows(copy.status, w.situation.status)
      && Trim(copy.snapshot) != ""
    case Patching(copy, now, updated) =>
      && now <= w.clock && Follows(copy.status, w.situation.status)
      && Decision(copy.status, updated, now) && Answered(copy, updated, w.runs) && Known(updated, w.uids)
  }

  ghost predicate RunsSound(runs: map<RunName, AgentRun>, uids: set<string>) {
    forall n :: n in runs ==> runs[n].uid in uids && ProperRun(runs[n].uid, runs[n].spec)
  }

  ghost predicate Sound(w: World) {
    && StatusSound(w.situation.status, w.uids) && Timed(w.situation.status, w.last, w.clock)
    && (w.situation.status.phase == Resolved ==> HoldOver(w.situation.status, w.clock))
    && Trim(w.situation.snapshot) != ""
    && RunsSound(w.runs, w.uids) && WorkerSound(w)
  }

  // ----- reports -----

  /** An accepted report extends the sequence it found or opens the next one. */
  ghost predicate Reopened(s: Status, s': Status, now: int, b: Buffer) {
    && s'.events != [] && s'.phase == Open
    && s'.lastEventAt == Some(now) && s'.quietUntil == Some(now + QuietSeconds(b))
    && s'.sequence >= s.sequence && s'.sequence > 0
    && (if s.sequence > 0 && s.phase != Resolved
        then s'.sequence == s.sequence && SameResponse(s', s)
        else
          && s'.sequence > s.sequence
          && s'.responder == None && s'.pullRequest == "" && s'.holdObservedAt == None && s'.holdUntil == None)
  }

  lemma ReportEffect(w: World, a: Action, w': World)
    requires ReportStep(w, a, w')
    ensures Reopened(w.situation.status, w'.situation.status, w.clock, w.situation.buffer)
    ensures w' == Reporting(w, w'.situation.status, a.snapshot) && Trim(a.snapshot) != ""
  {
  }

  lemma {:induction false} ReportSound(w: World, a: Action, w': World)
    requires Sound(w) && ReportStep(w, a, w')
    ensures Sound(w')
  {
    ReportEffect(w, a, w');
  }

  // ----- everyone else -----

  lemma EnvironmentSound(w: World, a: Action, w': World)
    requires Sound(w) && EnvironmentStep(w, a, w')
    ensures Sound(w')
  {
  }

  // ----- the controller -----

  lemma DecideSound(s: Status, run: Option<AgentRun>, now: int)
    requires Held(s)
    ensures Decision(s, Decide(s, run, now), now)
    ensures Decide(s, run, now).phase == Resolved ==> run.Some? ==> Terminal(run.value.phase)
  {
  }

  /** What answering a situation leaves to decide on. */
  ghost predicate Answers(copy: Situation, r: Responding, uids: set<string>) {
    && r.Responding? && r.status == copy.status.(responder := Some(Responder(r.name, r.run.uid, r.run.spec)))
    && (copy.status.responder.Some? ==> r.status.responder == copy.status.responder)
    && Established(r.status.responder.value) && r.run.uid in uids
  }

  lemma RespondAnswers(copy: Situation, runs: map<RunName, AgentRun>, uids: set<string>, uid: string)
    requires Respond(copy, runs, uid).Responding? && copy.status.sequence > 0
    requires Trim(copy.snapshot) != "" && Trim(uid) != "" && RunsSound(runs, uids)
    requires copy.status.responder.Some? ==> Established(copy.status.responder.value)
    ensures Answers(copy, Respond(copy, runs, uid), uids + {uid})
  {
  }

  lemma AnswerSound(copy: Situation, r: Responding, runs: map<RunName, AgentRun>, uids: set<string>, now: int)
    requires Answers(copy, r, uids) && Held(copy.status) && Live(copy.status)
    ensures var s := Decide(Observe(r.status, Some(r.run), now, copy.buffer), Some(r.run), now);
      Decision(copy.status, s, now) && Answered(copy, s, runs[r.name := r.run]) && Known(s, uids)
  {
    DecideSound(Observe(r.status, Some(r.run), now, copy.buffer), Some(r.run), now);
  }

  lemma {:induction false} RespondSound(copy: Situation, runs: map<RunName, AgentRun>, uids: set<string>, uid: string, now: int)
    requires Conclude(copy, runs, uid, now).status.Some?
    requires Trim(copy.snapshot) != "" && Trim(uid) != "" && RunsSound(runs, uids) && StatusSound(copy.status, uids)
    ensures var o := Conclude(copy, runs, uid, now);
      Decision(copy.status, o.status.value, now) && Answered(copy, o.status.value, o.runs) && Known(o.status.value, uids + {uid})
  {
    if !Live(copy.status) || !copy.enabled {
      DecideSound(copy.status, None, now);
    } else {
      RespondAnswers(copy, runs, uids, uid);
      AnswerSound(copy, Respond(copy, runs, uid), runs, uids + {uid}, now);
    }
  }

  /** A reconcile creates a responder exactly if the live situation it read has
      responders enabled, none recorded, and no run under the name of its sequence. */
  predicate Creates(copy: Situation, runs: map<RunName, AgentRun>) {
    copy.enabled && Live(copy.status) && copy.status.responder.None? && ForSequence(copy.status.sequence) !in runs
  }

  lemma ConcludeRuns(copy: Situation, runs: map<RunName, AgentRun>, uid: string, now: int)
    requires copy.status.events != [] ==> copy.status.sequence > 0
    ensures Conclude(copy, runs, uid, now).runs ==
      if Creates(copy, runs)
      then runs[ForSequence(copy.status.sequence) := AgentRun(uid, copy.uid, copy.snapshot, Unfinished, "")]
      else runs
  {
  }

  lemma {:induction false} ReactSound(w: World, uid: string, w': World)
    requires Sound(w) && WorkerStep(w, React(uid), w')
    ensures Sound(w')
  {
    var (copy, now) := (w.worker.copy, w.worker.now);
    ConcludeRuns(copy, w.runs, uid, now);
    if Conclude(copy, w.runs, uid, now).status.Some? {
      RespondSound(copy, w.runs, w.uids, uid, now);
    }
  }

  /** Reports in between survive the patch, except for the phase and its time. */
  ghost predicate Merged(copy: Status, updated: Status, s: Status, s': Status) {
    && s' == s.(
         phase := s'.phase, resolvedAt := s'.resolvedAt, responder := s'.responder,
         pullRequest := s'.pullRequest, holdObservedAt := s'.holdObservedAt, holdUntil := s'.holdUntil)
    && SameResponse(s', if Live(copy) then updated else s)
    && s'.phase == (if updated.phase == copy.phase then s.phase else updated.phase)
  }

  lemma MergeEffect(copy: Status, updated: Status, s: Status, now: int)
    requires Follows(copy, s) && Decision(copy, updated, now)
    ensures Merged(copy, updated, s, MergeStatus(copy, updated, s))
  {
  }

  lemma {:induction false} PatchSound(w: World, a: Action, w': World)
    requires Sound(w) && a.Patch? && WorkerStep(w, a, w')
    ensures Sound(w')
  {
    MergeEffect(w.worker.copy.status, w.worker.updated, w.situation.status, w.worker.now);
  }

  lemma {:induction false} StepSound(w: World, a: Action, w': World)
    requires Sound(w) && Step(w, a, w')
    ensures Sound(w')
  {
    if ReportStep(w, a, w') {
      ReportSound(w, a, w');
    } else if EnvironmentStep(w, a, w') {
      EnvironmentSound(w, a, w');
    } else {
      match a
      case React(uid) => ReactSound(w, uid, w');
      case Patch(_) => PatchSound(w, a, w');
      case _ =>
    }
  }

  lemma {:induction false} RunSound(tr: Trace)
    requires Run(tr)
    ensures Sound(Last(tr))
  {
    if tr.Then? {
      RunSound(tr.before);
      StepSound(Last(tr.before), tr.action, tr.world);
    }
  }

  // ----- quiet -----

  /** A resolved situation has been quiet for the period in force at its last report. */
  ghost predicate ResolvedQuiet(w: World) {
    w.situation.status.phase == Resolved ==> w.last.Some? && w.last.value.at + w.last.value.quiet <= w.clock
  }

  /** A patch that resolves finds the current deadline passed, which the code does not check. */
  predicate Punctual(w: World, a: Action) {
    a.Patch? && Resolving(w.worker) ==>
      w.situation.status.quietUntil.Some? && w.situation.status.quietUntil.value <= w.clock
  }

  /** A situation becomes resolved only by a resolving patch, which leaves its deadline. */
  lemma {:induction false} StepResolves(w: World, a: Action, w': World)
    requires Sound(w) && Step(w, a, w')
    ensures a.Patch? && Resolving(w.worker) ==>
      w'.situation.status.phase == Resolved && w'.situation.status == w.situation.status.(
        phase := Resolved, resolvedAt := w'.situation.status.resolvedAt, responder := w'.situation.status.responder,
        pullRequest := w'.situation.status.pullRequest, holdObservedAt := w'.situation.status.holdObservedAt,
        holdUntil := w'.situation.status.holdUntil) && w'.last == w.last && w'.clock == w.clock
    ensures w'.situation.status.phase == Resolved && !(a.Patch? && Resolving(w.worker)) ==>
      w.situation.status.phase == Resolved && w'.last == w.last && w.clock <= w'.clock
  {
    if ReportStep(w, a, w') {
      ReportEffect(w, a, w');
    } else if a.Patch? {
      MergeEffect(w.worker.copy.status, w.worker.updated, w.situation.status, w.worker.now);
    }
  }

  lemma {:induction false} StepQuiet(w: World, a: Action, w': World)
    requires Sound(w) && Step(w, a, w') && ResolvedQuiet(w)
    ensures ResolvedQuiet(w') <==> Punctual(w, a)
  {
    StepSound(w, a, w');
    StepResolves(w, a, w');
  }

  ghost predicate AlwaysQuiet(tr: Trace) {
    ResolvedQuiet(Last(tr)) && (tr.Then? ==> AlwaysQuiet(tr.before))
  }

  ghost predicate PunctualRun(tr: Trace) {
    tr.Then? ==> PunctualRun(tr.before) && Punctual(Last(tr.before), tr.action)
  }

  /** Resolution safety, exactly: a run is quiet in all its resolved states if and only
      if each of its resolving patches found the deadline of the last report passed. */
  lemma {:induction false} QuietExactly(tr: Trace)
    requires Run(tr)
    ensures AlwaysQuiet(tr) <==> PunctualRun(tr)
  {
    if tr.Then? {
      QuietExactly(tr.before);
      RunSound(tr.before);
      if AlwaysQuiet(tr.before) {
        StepQuiet(Last(tr.before), tr.action, tr.world);
      }
    }
  }

  /** No report is recorded between a read and the patch of a decision to resolve. */
  predicate Undisturbed(w: World, a: Action) {
    a.ReportSource? || a.ReportSignal? ==> !w.worker.Loaded? && !Resolving(w.worker)
  }

  ghost predicate UndisturbedRun(tr: Trace) {
    tr.Then? ==> UndisturbedRun(tr.before) && Undisturbed(Last(tr.before), tr.action)
  }

  /** The deadline a read or a decision to resolve relies on is the current one. */
  ghost predicate DeadlineCurrent(w: World) {
    w.worker.Loaded? || Resolving(w.worker) ==> w.situation.status.quietUntil == w.worker.copy.status.quietUntil
  }

  lemma {:induction false} StepDeadlineCurrent(w: World, a: Action, w': World)
    requires Sound(w) && Step(w, a, w') && DeadlineCurrent(w) && Undisturbed(w, a)
    ensures DeadlineCurrent(w')
  {
    if ReportStep(w, a, w') {
      ReportEffect(w, a, w');
    }
  }

  lemma {:induction false} UndisturbedPunctual(tr: Trace)
    requires Run(tr) && UndisturbedRun(tr)
    ensures PunctualRun(tr) && DeadlineCurrent(Last(tr))
  {
    if tr.Then? {
      UndisturbedPunctual(tr.before);
      RunSound(tr.before);
      StepDeadlineCurrent(Last(tr.before), tr.action, tr.world);
    }
  }

  /** So if reports keep out of the time between a read and a resolving patch, every
      resolved situation has been quiet for its period and any hold is over. */
  lemma {:induction false} ResolvedQuietly(tr: Trace)
    requires Run(tr) && UndisturbedRun(tr) && Last(tr).situation.status.phase == Resolved
    ensures var w := Last(tr);
      && w.last.Some? && w.last.value.at + w.last.value.quiet <= w.clock
      && (w.situation.status.holdUntil.Some? ==> w.situation.status.holdUntil.value <= w.clock)
      && (w.situation.status.pullRequest != "" ==> w.situation.status.holdUntil.Some?)
  {
    UndisturbedPunctual(tr);
    QuietExactly(tr);
    RunSound(tr);
  }

  /** A hold is respected in every run: reports do not touch it. */
  lemma {:induction false} ResolvedAfterHold(tr: Trace)
    requires Run(tr) && Last(tr).situation.status.phase == Resolved
    ensures var s := Last(tr).situation.status;
      && (s.pullRequest != "" ==> s.holdUntil.Some?)
      && (s.holdUntil.Some? ==> s.holdUntil.value <= Last(tr).clock)
  {
    RunSound(tr);
  }

  /** A report during a decision to resolve always breaks the promise, unless the patch
      waits out its quiet period. */
  lemma {:induction false} LateReportBreaks(tr: Trace, a: Action, w': World)
    requires Run(tr) && a.Patch? && Resolving(Last(tr).worker) && Step(Last(tr), a, w')
    requires Last(tr).last.Some? && Last(tr).clock < Last(tr).last.value.at + Last(tr).last.value.quiet
    ensures w'.situation.status.phase == Resolved && !ResolvedQuiet(w')
  {
    RunSound(tr);
    StepResolves(Last(tr), a, w');
  }

  // ----- responders -----

  /** In every run a situation becomes resolved only by the controller's patch; if
      responders were enabled when it was read, the recorded responder has finished. */
  lemma {:induction false} ResolvedAfterResponder(tr: Trace, a: Action, w': World)
    requires Run(tr) && Step(Last(tr), a, w')
    requires Last(tr).situation.status.phase != Resolved && w'.situation.status.phase == Resolved
    ensures a.Patch? && Last(tr).worker.Patching?
    ensures Last(tr).worker.copy.enabled ==>
      w'.situation.status.responder.Some? && Finished(w'.situation.status, w'.runs)
  {
    var w := Last(tr);
    RunSound(tr);
    StepResolves(w, a, w');
    MergeEffect(w.worker.copy.status, w.worker.updated, w.situation.status, w.worker.now);
  }

  /** A situation whose windows have passed resolves under an unfinished responder
      exactly when responders are switched off. */
  lemma ResolvesUnderResponder(s: Situation, runs: map<RunName, AgentRun>, uid: string, now: int)
    requires s.status.phase != Resolved && s.status.sequence > 0 && Elapsed(s.status, now)
    requires s.status.responder.Some? && Established(s.status.responder.value)
    requires s.status.responder.value.name in runs && !Terminal(runs[s.status.responder.value.name].phase)
    ensures var o := Conclude(s, runs, uid, now);
      o.status.Some? && o.status.value.phase == Resolved <==> !s.enabled
  {
  }

  predicate SameHold(s: Status, s': Status) {
    s'.holdObservedAt == s.holdObservedAt && s'.holdUntil == s.holdUntil
  }

  lemma {:induction false} StepSequence(w: World, a: Action, w': World)
    requires Sound(w) && Step(w, a, w')
    ensures w.situation.status.sequence <= w'.situation.status.sequence
    ensures w.situation.status.sequence == w'.situation.status.sequence && w.situation.status.responder.Some? ==>
      w'.situation.status.responder == w.situation.status.responder
    ensures w.situation.status.sequence == w'.situation.status.sequence && w.situation.status.holdObservedAt.Some? ==>
      SameHold(w.situation.status, w'.situation.status)
  {
    if ReportStep(w, a, w') {
      ReportEffect(w, a, w');
    } else if WorkerStep(w, a, w') && a.Patch? {
      MergeEffect(w.worker.copy.status, w.worker.updated, w.situation.status, w.worker.now);
    }
  }

  /** Over any run sequences only grow, and within one the recorded responder is fixed and
      a hold, once begun, is neither extended nor cut short. */
  lemma {:induction false} ResponderFixed(tr: Trace, earlier: Trace)
    requires Run(tr) && Continues(tr, earlier)
    ensures Run(earlier)
    ensures var (s, s') := (Last(earlier).situation.status, Last(tr).situation.status);
      && s.sequence <= s'.sequence
      && (s.sequence == s'.sequence && s.responder.Some? ==> s'.responder == s.responder)
      && (s.sequence == s'.sequence && s.holdObservedAt.Some? ==> SameHold(s, s'))
  {
    if tr != earlier {
      ResponderFixed(tr.before, earlier);
      RunSound(tr.before);
      StepSequence(Last(tr.before), tr.action, tr.world);
    }
  }

  // ----- one responder per sequence -----

  ghost predicate CreatedFor(created: seq<Creation>, sequence: int) {
    exists i :: 0 <= i < |created| && created[i].sequence == sequence
  }

  /** A responder that the controller created is not deleted before it is recorded. */
  ghost predicate Kept(w: World, a: Action) {
    var s := w.situation.status;
    a.DeleteRun? && a.name == ForSequence(s.sequence) && CreatedFor(w.created, s.sequence) ==> s.responder.Some?
  }

  ghost predicate KeptRun(tr: Trace) {
    tr.Then? ==> KeptRun(tr.before) && Kept(Last(tr.before), tr.action)
  }

  /** One creation per sequence, and one in the current sequence can still be found. */
  ghost predicate CreatedSound(created: seq<Creation>, s: Status, runs: map<RunName, AgentRun>) {
    && (forall i, j :: 0 <= i < j < |created| ==> created[i].sequence < created[j].sequence)
    && (forall i :: 0 <= i < |created| ==> created[i].sequence <= s.sequence)
    && (CreatedFor(created, s.sequence) ==> s.responder.Some? || ForSequence(s.sequence) in runs)
  }

  lemma CreatedLater(created: seq<Creation>, s: Status, runs: map<RunName, AgentRun>, s': Status, runs': map<RunName, AgentRun>)
    requires CreatedSound(created, s, runs) && s.sequence <= s'.sequence
    requires s'.sequence == s.sequence && CreatedFor(created, s.sequence) ==>
      (s.responder.Some? ==> s'.responder.Some?) && (ForSequence(s.sequence) in runs ==>
        s'.responder.Some? || ForSequence(s.sequence) in runs')
    ensures CreatedSound(created, s', runs')
  {
  }

  lemma {:induction false} ReactCreated(w: World, uid: string, w': World)
    requires Sound(w) && CreatedSound(w.created, w.situation.status, w.runs) && WorkerStep(w, React(uid), w')
    ensures CreatedSound(w'.created, w'.situation.status, w'.runs)
  {
    var copy := w.worker.copy;
    var name := ForSequence(copy.status.sequence);
    ConcludeRuns(copy, w.runs, uid, w.worker.now);
    if Creates(copy, w.runs) {
      assert name in w'.runs.Keys && name !in w.runs.Keys;
      assert w'.created == w.created + [Creation(copy.status.sequence, uid)];
    }
  }

  lemma {:induction false} StepCreated(w: World, a: Action, w': World)
    requires Sound(w) && CreatedSound(w.created, w.situation.status, w.runs) && Step(w, a, w') && Kept(w, a)
    ensures CreatedSound(w'.created, w'.situation.status, w'.runs)
  {
    if WorkerStep(w, a, w') && a.React? {
      ReactCreated(w, a.uid, w');
    } else {
      StepSequence(w, a, w');
      CreatedLater(w.created, w.situation.status, w.runs, w'.situation.status, w'.runs);
    }
  }

  lemma {:induction false} RunCreated(tr: Trace)
    requires Run(tr) && KeptRun(tr)
    ensures CreatedSound(Last(tr).created, Last(tr).situation.status, Last(tr).runs)
  {
    if tr.Then? {
      RunCreated(tr.before);
      RunSound(tr.before);
      StepCreated(Last(tr.before), tr.action, tr.world);
    }
  }

  /** In every run that keeps created responders until they are recorded, at most one is
      created per sequence. */
  lemma {:induction false} OneResponderPerSequence(tr: Trace, i: nat, j: nat)
    requires Run(tr) && KeptRun(tr) && i < j < |Last(tr).created|
    ensures Last(tr).created[i].sequence != Last(tr).created[j].sequence
  {
    RunCreated(tr);
  }

  /** In every run a reconcile creates a responder for the current sequence exactly if
      the live situation has responders enabled, none recorded and no run under the
      name; whether one was created before makes no difference. */
  lemma {:induction false} CreatedExactly(tr: Trace, uid: string, w': World)
    requires Run(tr) && WorkerStep(Last(tr), React(uid), w')
    ensures |w'.created| > |Last(tr).created| <==> Creates(Last(tr).worker.copy, Last(tr).runs)
    ensures Creates(Last(tr).worker.copy, Last(tr).runs) ==>
      w'.created == Last(tr).created + [Creation(Last(tr).situation.status.sequence, uid)]
  {
    var copy := Last(tr).worker.copy;
    RunSound(tr);
    ConcludeRuns(copy, Last(tr).runs, uid, Last(tr).worker.now);
    if Creates(copy, Last(tr).runs) {
      assert ForSequence(copy.status.sequence) in w'.runs.Keys;
    }
  }
}
