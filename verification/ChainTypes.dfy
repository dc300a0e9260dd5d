/** Agent chains: linear workflows whose steps run as child agent runs, and the
    rules that only compute: validation, step lookup, gates and step records. */
module ChainTypes {
  import opened Strings
  import opened AgentRuns

  datatype When = When(previous: string, phases: seq<RunPhase>, actions: seq<string>)

  /** `handoff` lists the earlier steps whose results go into the prompt; None is no handoff. */
  datatype StepSpec = StepSpec(
    name: string, when: Option<When>, application: Option<string>, template: string, handoff: Option<seq<string>>)

  /** The part of the spec that one instance is bound to. Its digest is modelled as
      the workflow itself: digests are taken to be injective. */
  datatype Workflow = Workflow(
    application: Option<string>, completion: seq<string>, dynamic: string, repository: string, steps: seq<StepSpec>)

  datatype Backoff = Backoff(failed: int, needsHuman: int)

  datatype Policy = DefaultPolicy | Forbid | Queue | OtherPolicy

  datatype Spec = Spec(
    workflow: Workflow, policy: Policy, suspend: bool,
    interval: int, delay: int, maxPerDay: int, backoff: Option<Backoff>)

  /** The identity of an instance: the token that started it or the time it was due. */
  datatype Instance = Manual(token: string) | Interval(dueAt: int)

  /** Child names are an injective function of instance and step. */
  datatype Name = Name(instance: Instance, step: string)

  /** What the controller puts into a child's spec beyond its provenance. */
  datatype Content = Content(template: string, application: string, handoff: seq<Option<string>>, detectedAt: Option<int>)

  datatype Child = Child(
    uid: string, owner: string, instance: Instance, step: string, generation: int, digest: Workflow,
    content: Content, createdAt: int, phase: RunPhase, completedAt: Option<int>, action: Option<string>, output: string)

  datatype StepRun = StepRun(
    instance: Instance, step: string, name: Name, uid: string, phase: RunPhase, generation: int, digest: Workflow)

  datatype Active = Active(
    instance: Instance, step: string, ref: Option<Name>, uid: string, generation: int, digest: Option<Workflow>)

  datatype ChainPhase = Unset | Idle | Running | Blocked | Suspended | Cancelling | WaitingHuman

  datatype CancelToken = NoCancel | CancelAll | Cancel(instance: Instance) | Unrelated(text: string)

  datatype Status = Status(
    phase: ChainPhase, active: Option<Active>, cancelRequested: Option<Instance>, lastInstance: Option<Instance>,
    stepRuns: seq<StepRun>, nextStartAt: Option<int>, lastStartToken: string, lastCancelToken: CancelToken)

  const EMPTY_STATUS := Status(Unset, None, None, None, [], None, "", NoCancel)

  datatype Chain = Chain(
    uid: string, generation: int, spec: Spec, startToken: string, cancel: CancelToken, createdAt: int,
    finalizer: bool, deleting: bool, status: Status)

  // ----- validation -----

  ghost predicate NonBlank(names: seq<string>) {
    forall i :: 0 <= i < |names| ==> Trim(names[i]) != ""
  }

  ghost predicate TerminalPhases(phases: seq<RunPhase>) {
    forall i :: 0 <= i < |phases| ==> phases[i] == Succeeded || phases[i] == Failed
  }

  ghost predicate ValidStep(steps: seq<StepSpec>, i: nat)
    requires i < |steps|
  {
    && Trim(steps[i].name) != ""
    && (i == 0 ==> steps[i].when.None? || Trim(steps[i].when.value.previous) == "")
    && (i > 0 ==>
          && steps[i].when.Some? && Trim(steps[i].when.value.previous) != ""
          && NonBlank(steps[i].when.value.actions) && TerminalPhases(steps[i].when.value.phases)
          && Trim(steps[i].when.value.previous) == steps[i - 1].name)
  }

  ghost predicate DistinctNames(steps: seq<StepSpec>) {
    forall i, j :: 0 <= i < j < |steps| ==> Trim(steps[i].name) != Trim(steps[j].name)
  }

  /** A linear chain: unique step names, each step gated on the one before it. */
  ghost predicate ValidSteps(steps: seq<StepSpec>) {
    (forall i :: 0 <= i < |steps| ==> ValidStep(steps, i)) && DistinctNames(steps)
  }

  ghost predicate ValidSpec(s: Spec) {
    && s.workflow.steps != [] && (s.policy.DefaultPolicy? || s.policy.Forbid?)
    && s.interval >= 0 && s.delay >= 0 && s.maxPerDay >= 0
    && (s.backoff.Some? ==> s.backoff.value.failed >= 0 && s.backoff.value.needsHuman >= 0)
    && NonBlank(s.workflow.completion)
    && ValidSteps(s.workflow.steps)
  }

  method AllNonBlank(names: seq<string>) returns (ok: bool)
    ensures ok <==> NonBlank(names)
  {
    for i := 0 to |names|
      invariant NonBlank(names[..i])
    {
      if Trim(names[i]) == "" {
        return false;
      }
    }
    assert names[..|names|] == names;
    return true;
  }

  method AllTerminal(phases: seq<RunPhase>) returns (ok: bool)
    ensures ok <==> TerminalPhases(phases)
  {
    for i := 0 to |phases|
      invariant TerminalPhases(phases[..i])
    {
      if phases[i] != Succeeded && phases[i] != Failed {
        return false;
      }
    }
    assert phases[..|phases|] == phases;
    return true;
  }

  method ValidateStep(steps: seq<StepSpec>, i: nat) returns (ok: bool)
    requires i < |steps|
    ensures ok <==> ValidStep(steps, i)
  {
    var step := steps[i];
    if Trim(step.name) == "" {
      return false;
    }
    if i == 0 {
      return step.when.None? || Trim(step.when.value.previous) == "";
    }
    if step.when.None? || Trim(step.when.value.previous) == "" {
      return false;
    }
    ok := AllNonBlank(step.when.value.actions);
    if !ok {
      return false;
    }
    ok := AllTerminal(step.when.value.phases);
    if !ok {
      return false;
    }
    return Trim(step.when.value.previous) == steps[i - 1].name;
  }

  method ValidateSteps(steps: seq<StepSpec>) returns (ok: bool)
    ensures ok <==> ValidSteps(steps)
  {
    var seen: set<string> := {};
    for i := 0 to |steps|
      invariant forall k :: 0 <= k < i ==> ValidStep(steps, k)
      invariant DistinctNames(steps[..i])
      invariant forall x :: x in seen <==> exists k :: 0 <= k < i && Trim(steps[k].name) == x
    {
      if Trim(steps[i].name) in seen {
        return false;
      }
      seen := seen + {Trim(steps[i].name)};
      ok := ValidateStep(steps, i);
      if !ok {
        return false;
      }
      assert steps[..i + 1] == steps[..i] + [steps[i]];
    }
    assert steps[..|steps|] == steps;
    return true;
  }

  method Validate(s: Spec) returns (ok: bool)
    ensures ok <==> ValidSpec(s)
  {
    if |s.workflow.steps| == 0 || s.policy.Queue? || s.policy.OtherPolicy? {
      return false;
    }
    if s.interval < 0 || s.delay < 0 || s.maxPerDay < 0 {
      return false;
    }
    if s.backoff.Some? && (s.backoff.value.failed < 0 || s.backoff.value.needsHuman < 0) {
      return false;
    }
    ok := AllNonBlank(s.workflow.completion);
    if ok {
      ok := ValidateSteps(s.workflow.steps);
    }
  }

  // ----- the application of a chain -----

  function Named(ref: Option<string>): seq<string> {
    if ref.Some? && Trim(ref.value) != "" then [Trim(ref.value)] else []
  }

  function StepApplications(steps: seq<StepSpec>): seq<string> {
    if steps == [] then [] else StepApplications(steps[..|steps| - 1]) + Named(steps[|steps| - 1].application)
  }

  function Applications(w: Workflow): seq<string> {
    Named(w.application) + StepApplications(w.steps)
  }

  /** The one application every reference in the workflow names, if there is one. */
  ghost function Application(w: Workflow): Option<string> {
    var names := Applications(w);
    if names != [] && (forall i :: 0 <= i < |names| ==> names[i] == names[0]) then Some(names[0]) else None
  }

  method ResolveApplication(w: Workflow) returns (r: Option<string>)
    ensures r == Application(w)
  {
    var names := Named(w.application);
    for i := 0 to |w.steps|
      invariant names == Named(w.application) + StepApplications(w.steps[..i])
    {
      assert w.steps[..i + 1][..i] == w.steps[..i];
      names := names + Named(w.steps[i].application);
    }
    assert w.steps[..|w.steps|] == w.steps;
    if |names| == 0 {
      return None;
    }
    for i := 1 to |names|
      invariant forall k :: 0 <= k < i ==> names[k] == names[0]
    {
      if names[i] != names[0] {
        return None;
      }
    }
    return Some(names[0]);
  }

  // ----- steps and gates -----

  /** The first step with this name, or the number of steps. */
  function StepAt(steps: seq<StepSpec>, name: string): (r: nat)
    ensures r <= |steps|
    ensures r < |steps| ==> steps[r].name == name
    ensures forall k :: 0 <= k < r ==> steps[k].name != name
  {
    if steps == [] then 0
    else if steps[0].name == name then 0
    else
      var r := StepAt(steps[1..], name);
      assert forall k :: 1 <= k < 1 + r ==> steps[k] == steps[1..][k - 1];
      1 + r
  }

  method StepIndex(steps: seq<StepSpec>, name: string) returns (r: int)
    ensures r == -1 || 0 <= r < |steps|
    ensures r == if StepAt(steps, Trim(name)) < |steps| then StepAt(steps, Trim(name)) else -1
  {
    var wanted := Trim(name);
    for i := 0 to |steps|
      invariant forall k :: 0 <= k < i ==> steps[k].name != wanted
    {
      if steps[i].name == wanted {
        return i;
      }
    }
    return -1;
  }

  function DecisionAction(run: Child): string {
    if run.action.None? then "" else Trim(run.action.value)
  }

  ghost predicate Allowed(actions: seq<string>, action: string) {
    exists i :: 0 <= i < |actions| && EqualFold(Trim(actions[i]), action)
  }

  function Phases(when: Option<When>): seq<RunPhase> {
    if when.Some? && when.value.phases != [] then when.value.phases else [Succeeded]
  }

  /** The gate of a step, put to the run of the step before it. */
  ghost predicate WhenMatches(when: Option<When>, previous: string, prior: Child) {
    && (previous != "" ==> prior.step == previous)
    && prior.phase in Phases(when)
    && (when.Some? && when.value.actions != [] ==> Allowed(when.value.actions, DecisionAction(prior)))
  }

  ghost predicate CompletionMatches(completion: seq<string>, run: Child) {
    run.phase == Succeeded && (completion != [] ==> Allowed(completion, DecisionAction(run)))
  }

  method IsAllowed(actions: seq<string>, action: string) returns (ok: bool)
    ensures ok <==> Allowed(actions, action)
  {
    for i := 0 to |actions|
      invariant !Allowed(actions[..i], action)
    {
      if EqualFold(Trim(actions[i]), action) {
        return true;
      }
      assert actions[..i + 1] == actions[..i] + [actions[i]];
    }
    assert actions[..|actions|] == actions;
    return false;
  }

  method MatchWhen(when: Option<When>, previous: string, prior: Child) returns (ok: bool)
    ensures ok <==> WhenMatches(when, previous, prior)
  {
    if previous != "" && prior.step != previous {
      return false;
    }
    var phases := Phases(when);
    var matched := false;
    for i := 0 to |phases|
      invariant matched <==> prior.phase in phases[..i]
    {
      if prior.phase == phases[i] {
        matched := true;
      }
    }
    assert phases[..|phases|] == phases;
    if !matched {
      return false;
    }
    if when.Some? && |when.value.actions| > 0 {
      ok := IsAllowed(when.value.actions, DecisionAction(prior));
      return;
    }
    return true;
  }

  method MatchCompletion(completion: seq<string>, run: Child) returns (ok: bool)
    ensures ok <==> CompletionMatches(completion, run)
  {
    if run.phase != Succeeded {
      return false;
    }
    if |completion| == 0 {
      return true;
    }
    ok := IsAllowed(completion, DecisionAction(run));
  }

  // ----- step records -----

  predicate SameStep(a: StepRun, b: StepRun) {
    a.instance == b.instance && a.step == b.step
  }

  /** The records of the instance of `next`, with those of its step replaced. */
  function Replaced(runs: seq<StepRun>, next: StepRun): seq<StepRun> {
    if runs == [] then []
    else
      var rest := Replaced(runs[..|runs| - 1], next);
      var item := runs[|runs| - 1];
      if SameStep(item, next) then rest + [next]
      else if item.instance != next.instance then rest
      else rest + [item]
  }

  ghost function Upsert(runs: seq<StepRun>, next: StepRun): seq<StepRun> {
    if exists i :: 0 <= i < |runs| && SameStep(runs[i], next) then Replaced(runs, next) else Replaced(runs, next) + [next]
  }

  method UpsertStepRun(existing: seq<StepRun>, next: StepRun) returns (out: seq<StepRun>)
    ensures out == Upsert(existing, next)
  {
    out := [];
    var replaced := false;
    for i := 0 to |existing|
      invariant out == Replaced(existing[..i], next)
      invariant replaced <==> exists k :: 0 <= k < i && SameStep(existing[k], next)
    {
      var item := existing[i];
      assert existing[..i + 1][..i] == existing[..i];
      if SameStep(item, next) {
        out := out + [next];
        replaced := true;
      } else if item.instance == next.instance {
        out := out + [item];
      }
    }
    assert existing[..|existing|] == existing;
    if !replaced {
      out := out + [next];
    }
  }

  lemma {:induction false} ReplacedMembers(runs: seq<StepRun>, next: StepRun, x: StepRun)
    ensures x in Replaced(runs, next) <==>
      if SameStep(x, next) then x == next && exists i :: 0 <= i < |runs| && SameStep(runs[i], next)
      else x in runs && x.instance == next.instance
  {
    if runs != [] {
      var rest := runs[..|runs| - 1];
      ReplacedMembers(rest, next, x);
      assert runs == rest + [runs[|runs| - 1]];
    }
  }

  /** Recording a step keeps exactly the other steps of the same instance beside it. */
  lemma {:induction false} UpsertMembers(runs: seq<StepRun>, next: StepRun, x: StepRun)
    ensures x in Upsert(runs, next) <==> x == next || (x in runs && x.instance == next.instance && x.step != next.step)
  {
    ReplacedMembers(runs, next, x);
    ReplacedMembers(runs, next, next);
  }
}
