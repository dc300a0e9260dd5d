/** Runs of a situation that resolve too early, and that create two responders. */
module ResolutionExamples {
  import opened Strings
  import opened AgentRuns
  import opened SituationBuffer
  import opened SituationReconcile
  import opened ResolutionRuns
  import opened ResolutionTheorems

  /** A new situation with default periods. */
  function Sample(enabled: bool): Situation {
    Situation("uid", enabled, Buffer(0, 0, 0, 0), "spec", EMPTY_STATUS)
  }

  const SAMPLE_EVENT := Event("event", [], "body", Some(0), Some(0), 1)

  /** Its status once it was reported at time 0. */
  const REPORTED := Status(Open, 1, [SAMPLE_EVENT], 1, 0, Some(0), Some(300), None, None, "", None, None)

  const REPORT := ReportSource("event", "body", "spec")

  lemma Names()
    ensures Trim("uid") == "uid" && Trim("spec") == "spec" && Trim("first") == "first" && Trim("second") == "second"
  {
  }

  /** The situation is reported at time 0, and time goes on. */
  lemma {:induction false} ReportedRun(enabled: bool, seconds: nat) returns (tr: Trace)
    ensures Run(tr) && KeptRun(tr)
    ensures Last(tr) == Initial(Sample(enabled).(status := REPORTED), seconds).(last := Some(Report(0, 300)))
  {
    Names();
    var w := Initial(Sample(enabled), 0);
    var status := RecordSource(EMPTY_STATUS, "event", "body", 0, w.situation.buffer);
    assert status == Some(REPORTED) by {
      assert EMPTY_STATUS.events[..0] == [];
      assert [] + [SAMPLE_EVENT] == [SAMPLE_EVENT];
    }
    var start := Start(Sample(enabled), 0);
    assert Run(start) && Last(start) == w;
    var reported := Then(start, REPORT, Reporting(w, REPORTED, "spec"));
    assert ReportStep(w, REPORT, reported.world);
    tr := Then(reported, Tick(seconds), reported.world.(clock := seconds));
  }

  /** The controller has decided to resolve at time 300, without responders. */
  lemma {:induction false} DecidedRun() returns (tr: Trace)
    ensures Run(tr) && Resolving(Last(tr).worker)
    ensures Last(tr).situation == Sample(false).(status := REPORTED) && Last(tr).clock == 300
  {
    Names();
    var quiet := ReportedRun(false, 300);
    var loaded := Then(quiet, Load, Last(quiet).(worker := Loaded(Last(quiet).situation, 300)));
    assert Run(loaded);
    tr := Then(loaded, React("first"), Concluded(Last(loaded), "first"));
  }

  /** A second report at time 300 is recorded. */
  lemma SecondReport() returns (s: Status)
    ensures RecordSource(REPORTED, "event", "body", 300, Sample(false).buffer) == Some(s)
  {
    assert !Repeats(SAMPLE_EVENT, "event", 300, 120);
    assert FindRepeated(REPORTED.events, "event", 300, 120).None?;
    assert REPORTED.events[..0] == [];
    s := Append(REPORTED, "event", [], "body", 300, Sample(false).buffer).value;
  }

  /** A run in which a report arrives between the decision and the patch: the situation
      is resolved in the very second it was reported, 300 seconds too early. */
  lemma {:induction false} LateReportRun() returns (tr: Trace)
    ensures Run(tr) && Last(tr).situation.status.phase == Resolved
    ensures Last(tr).last == Some(Report(300, 300)) && Last(tr).clock == 300
  {
    Names();
    var decided := DecidedRun();
    var s := SecondReport();
    var late := Then(decided, REPORT, Reporting(Last(decided), s, "spec"));
    assert Run(late);
    var w := Last(late);
    var merged := MergeStatus(w.worker.copy.status, w.worker.updated, w.situation.status);
    tr := Then(late, Patch("spec"), Stored(w, merged, "spec").(worker := Idle));
    LateReportBreaks(late, Patch("spec"), tr.world);
  }

  /** A situation is read with responders enabled. */
  lemma {:induction false} LoadedRun() returns (tr: Trace)
    ensures Run(tr) && Last(tr).worker == Loaded(Last(tr).situation, 0)
    ensures Last(tr).situation == Sample(true).(status := REPORTED)
    ensures Last(tr).created == [] && Last(tr).runs == map[] && Last(tr).uids == {} && Last(tr).clock == 0
  {
    var reported := ReportedRun(true, 0);
    tr := Then(reported, Load, Last(reported).(worker := Loaded(Last(reported).situation, 0)));
  }

  /** A responder is created, and the controller stops before recording it. */
  lemma {:induction false} UnrecordedRun() returns (tr: Trace)
    ensures Run(tr) && Last(tr).worker == Idle && Last(tr).situation == Sample(true).(status := REPORTED)
    ensures Last(tr).created == [Creation(1, "first")] && Last(tr).uids == {"first"}
    ensures Last(tr).runs.Keys == {ForSequence(1)}
  {
    Names();
    var loaded := LoadedRun();
    var w := Last(loaded);
    assert Creates(w.worker.copy, w.runs);
    ConcludeRuns(w.worker.copy, w.runs, "first", 0);
    CreatedExactly(loaded, "first", Concluded(w, "first"));
    var reacted := Then(loaded, React("first"), Concluded(w, "first"));
    tr := Then(reacted, Crash, Last(reacted).(worker := Idle));
  }

  /** If that run is deleted, the next reconcile creates a second one for the sequence. */
  lemma {:induction false} DeletedResponderRecreated() returns (tr: Trace)
    ensures Run(tr) && !KeptRun(tr)
    ensures Last(tr).created == [Creation(1, "first"), Creation(1, "second")]
  {
    Names();
    var before := UnrecordedRun();
    var deleted := Then(before, DeleteRun(ForSequence(1)), Last(before).(runs := Last(before).runs - {ForSequence(1)}));
    assert Run(deleted);
    var loaded := Then(deleted, Load, Last(deleted).(worker := Loaded(Last(deleted).situation, Last(deleted).clock)));
    assert Run(loaded);
    tr := Then(loaded, React("second"), Concluded(Last(loaded), "second"));
    CreatedExactly(loaded, "second", tr.world);
    if KeptRun(tr) {
      OneResponderPerSequence(tr, 0, 1);
    }
  }

  const RESPONDER := Responder(ForSequence(1), "first", "spec")

  /** The status with its responder recorded. */
  const ANSWERED := REPORTED.(phase := Quieting, responder := Some(RESPONDER))

  lemma FirstConclusion()
    ensures Conclude(Sample(true).(status := REPORTED), map[], "first", 0) ==
      Outcome(Some(ANSWERED), map[ForSequence(1) := AgentRun("first", "uid", "spec", Unfinished, "")])
  {
    assert map[][ForSequence(1) := AgentRun("first", "uid", "spec", Unfinished, "")] ==
      map[ForSequence(1) := AgentRun("first", "uid", "spec", Unfinished, "")];
  }

  lemma LastConclusion(s: Situation, runs: map<RunName, AgentRun>)
    requires !s.enabled && s.status == ANSWERED
    ensures Conclude(s, runs, "second", 300) == Outcome(Some(ANSWERED.(phase := Resolved, resolvedAt := Some(300))), runs)
  {
  }

  /** A reconcile that creates nothing new or one run, patched without interference. */
  lemma {:induction false} ReconciledRun(tr: Trace, uid: string, s: Status, runs: map<RunName, AgentRun>) returns (longer: Trace)
    requires Run(tr) && Last(tr).worker == Loaded(Last(tr).situation, Last(tr).clock)
    requires uid !in Last(tr).uids && Trim(uid) != "" && Trim("spec") != ""
    requires Conclude(Last(tr).situation, Last(tr).runs, uid, Last(tr).clock) == Outcome(Some(s), runs)
    ensures Run(longer) && Last(longer).situation == Last(tr).situation.(status := s, snapshot := "spec")
    ensures Last(longer).runs == runs && Last(longer).worker == Idle && Last(longer).clock == Last(tr).clock
    ensures Last(longer).uids == Last(tr).uids + {uid}
  {
    var w := Concluded(Last(tr), uid);
    var reacted := Then(tr, React(uid), w);
    assert Run(reacted);
    assert MergeStatus(w.situation.status, s, w.situation.status) == s;
    longer := Then(reacted, Patch("spec"), Stored(w, s, "spec").(worker := Idle));
  }

  /** The first responder is recorded. */
  lemma {:induction false} RecordedRun() returns (tr: Trace)
    ensures Run(tr) && Last(tr).worker == Idle && Last(tr).clock == 0 && Last(tr).uids == {"first"}
    ensures Last(tr).situation.status == ANSWERED
    ensures Last(tr).runs == map[ForSequence(1) := AgentRun("first", "uid", "spec", Unfinished, "")]
  {
    Names();
    var loaded := LoadedRun();
    FirstConclusion();
    tr := ReconciledRun(loaded, "first", ANSWERED, map[ForSequence(1) := AgentRun("first", "uid", "spec", Unfinished, "")]);
  }

  /** Responders are switched off, and the quiet period passes. */
  lemma {:induction false} SwitchedOffRun() returns (tr: Trace)
    ensures Run(tr) && Last(tr).clock == 300 && Last(tr).worker == Loaded(Last(tr).situation, 300)
    ensures !Last(tr).situation.enabled && Last(tr).uids == {"first"} && Last(tr).situation.status == ANSWERED
    ensures Last(tr).runs == map[ForSequence(1) := AgentRun("first", "uid", "spec", Unfinished, "")]
  {
    Names();
    var recorded := RecordedRun();
    var w := Last(recorded);
    var off := Then(recorded, Edit(false, w.situation.buffer, "spec"),
      w.(situation := w.situation.(enabled := false, snapshot := "spec")));
    assert Run(off);
    var later := Then(off, Tick(300), Last(off).(clock := 300));
    assert Run(later);
    tr := Then(later, Load, Last(later).(worker := Loaded(Last(later).situation, 300)));
  }

  /** A run in which a situation is resolved over its unfinished responder. */
  lemma {:induction false} ResolvedOverResponder() returns (tr: Trace)
    ensures Run(tr) && Last(tr).situation.status.phase == Resolved && !Finished(Last(tr).situation.status, Last(tr).runs)
  {
    Names();
    var loaded := SwitchedOffRun();
    LastConclusion(Last(loaded).situation, Last(loaded).runs);
    tr := ReconciledRun(loaded, "second", ANSWERED.(phase := Resolved, resolvedAt := Some(300)), Last(loaded).runs);
  }
}
