/** The file-backed task engine, the advice it gives, and a driver that follows the advice. */
module GovernedTasks {
  import opened Common
  import opened Tasks

  datatype Advice =
    | NothingToDo | WaitForApproval(index: nat) | ReviewFailure(index: nat) | ExecuteStep(index: nat)
    | CompleteTask | CollectEvidence | Wait

  /** The first step from `from` on with the given status. */
  function FirstWith(steps: seq<Step>, status: StepStatus, from: nat): Option<nat>
    requires from <= |steps|
    decreases |steps| - from
  {
    if from == |steps| then None
    else if steps[from].status == status then Some(from)
    else FirstWith(steps, status, from + 1)
  }

  function FirstReady(steps: seq<Step>, from: nat): Option<nat>
    requires from <= |steps|
    decreases |steps| - from
  {
    if from == |steps| then None
    else if steps[from].status.StepPending? && DependenciesMet(steps, from) then Some(from)
    else FirstReady(steps, from + 1)
  }

  function AdviceFor(task: Task): Advice {
    if TerminalStatus(task.status) then NothingToDo
    else if FirstWith(task.steps, StepWaiting, 0).Some? then
      WaitForApproval(FirstWith(task.steps, StepWaiting, 0).value)
    else if FirstWith(task.steps, StepFailed, 0).Some? then ReviewFailure(FirstWith(task.steps, StepFailed, 0).value)
    else if FirstReady(task.steps, 0).Some? then ExecuteStep(FirstReady(task.steps, 0).value)
    else if AllDone(task.steps) then (if HasTrusted(task.evidence) then CompleteTask else CollectEvidence)
    else Wait
  }

  lemma {:induction false} FirstWithMeaning(steps: seq<Step>, status: StepStatus, from: nat)
    requires from <= |steps|
    ensures match FirstWith(steps, status, from)
            case Some(k) =>
              && from <= k < |steps| && steps[k].status == status
              && forall i :: from <= i < k ==> steps[i].status != status
            case None => forall i :: from <= i < |steps| ==> steps[i].status != status
    decreases |steps| - from
  {
    if from < |steps| {
      FirstWithMeaning(steps, status, from + 1);
    }
  }

  lemma {:induction false} FirstReadyMeaning(steps: seq<Step>, from: nat)
    requires from <= |steps|
    ensures match FirstReady(steps, from)
            case Some(k) => from <= k < |steps| && steps[k].status.StepPending? && DependenciesMet(steps, k)
                            && forall i :: from <= i < k ==>
                                 !(steps[i].status.StepPending? && DependenciesMet(steps, i))
            case None =>
              forall i :: from <= i < |steps| ==> !(steps[i].status.StepPending? && DependenciesMet(steps, i))
    decreases |steps| - from
  {
    if from < |steps| {
      FirstReadyMeaning(steps, from + 1);
    }
  }

  /** Because dependencies point strictly backwards, the engine says "wait" only when some step
      is running or was cancelled; otherwise there is always something to do. */
  lemma WaitHasAReason(task: Task)
    requires TaskInvariant(task)
    requires AdviceFor(task) == Wait
    ensures exists i :: 0 <= i < |task.steps| && (task.steps[i].status.StepRunning?
                                                  || task.steps[i].status.StepCancelled?)
  {
    FirstWithMeaning(task.steps, StepWaiting, 0);
    FirstWithMeaning(task.steps, StepFailed, 0);
    FirstReadyMeaning(task.steps, 0);
    if forall i :: 0 <= i < |task.steps| ==>
         !task.steps[i].status.StepRunning? && !task.steps[i].status.StepCancelled? {
      FirstWithMeaning(task.steps, StepPending, 0);
      var k := FirstWith(task.steps, StepPending, 0).value;
      assert DependenciesMet(task.steps, k);
      assert false;
    }
  }

  /** Following the advice to execute a step is always accepted. */
  lemma ExecuteAdviceIsAccepted(task: Task, note: string, now: int)
    requires AdviceFor(task).ExecuteStep?
    ensures var u := StepUpdate(AdviceFor(task).index, StepRunning, note, NoReference, NoteEvidence, NoApproval);
            UpdateStep(task, u, None, now).Ok?
  {
    FirstReadyMeaning(task.steps, 0);
  }

  // ---------------------------------------------------------------- a driver

  function RunUpdate(i: nat): StepUpdate {
    StepUpdate(i, StepRunning, "", NoReference, NoteEvidence, NoApproval)
  }

  function SucceedUpdate(i: nat): StepUpdate {
    StepUpdate(i, StepSucceeded, "", OperationRef(i), OperationEvidence, NoApproval)
  }

  /** The calls one round of advice leads to: run the step and mark it succeeded with trusted
      evidence, or complete the task. */
  function Round(task: Task, now: int): seq<Call> {
    match AdviceFor(task)
    case ExecuteStep(i) => [UpdateCall(RunUpdate(i), None, now), UpdateCall(SucceedUpdate(i), None, now)]
    case CompleteTask => [TransitionCall(Completed, "", None, now)]
    case _ => []
  }

  ghost predicate AllAccepted(task: Task, calls: seq<Call>) {
    forall i :: 0 <= i < |calls| ==> Perform(AfterAll(task, calls[..i]), calls[i]).Ok?
  }

  /** All calls of a driver that asks for advice `rounds` times and follows it. */
  function DriverCalls(task: Task, now: int, rounds: nat): seq<Call> {
    if rounds == 0 then []
    else
      var earlier := DriverCalls(task, now, rounds - 1);
      earlier + Round(AfterAll(task, earlier), now)
  }

  /** The first `k` steps have succeeded, the others are untouched. */
  ghost predicate Progress(task: Task, k: nat) {
    && k <= |task.steps| && BackwardDependencies(task.steps)
    && (forall i :: 0 <= i < k ==> task.steps[i].status.StepSucceeded?)
    && (forall i :: k <= i < |task.steps| ==> task.steps[i].status.StepPending? && task.steps[i].startedAt.None?)
    && (k > 0 ==> HasTrusted(task.evidence))
    && (k < |task.steps| ==> task.status.Planned? || task.status.Running?)
    && (k == |task.steps| ==> task.status.Verifying?)
  }

  lemma AdviceInProgress(task: Task, k: nat)
    requires Progress(task, k) && |task.steps| > 0
    ensures AdviceFor(task) == if k < |task.steps| then ExecuteStep(k) else CompleteTask
  {
    FirstWithMeaning(task.steps, StepWaiting, 0);
    FirstWithMeaning(task.steps, StepFailed, 0);
    FirstReadyMeaning(task.steps, 0);
    if k < |task.steps| {
      assert DependenciesMet(task.steps, k);
    }
  }

  lemma TrustedSurvives(evidence: seq<Evidence>, record: Evidence)
    requires record.trusted
    ensures HasTrusted(LastN(evidence + [record], MAX_EVIDENCE))
  {
    var kept := LastN(evidence + [record], MAX_EVIDENCE);
    assert kept[|kept| - 1] == record;
  }

  /** Between the two calls of a round: step `k` is running. */
  ghost predicate InRound(task: Task, k: nat) {
    && k < |task.steps| && BackwardDependencies(task.steps)
    && (forall i :: 0 <= i < k ==> task.steps[i].status.StepSucceeded?)
    && task.steps[k].status.StepRunning? && task.status.Running?
    && (forall i :: k < i < |task.steps| ==> task.steps[i].status.StepPending? && task.steps[i].startedAt.None?)
  }

  lemma StartAdvances(task: Task, k: nat, now: int)
    requires Progress(task, k) && k < |task.steps|
    ensures var running := UpdateStep(task, RunUpdate(k), None, now);
            running.Ok? && |running.value.steps| == |task.steps| && InRound(running.value, k)
  {
    assert DependenciesMet(task.steps, k);
    var t1 := UpdateStep(task, RunUpdate(k), None, now).value;
    assert t1.steps == task.steps[k := t1.steps[k]];
    assert t1.steps[k].dependsOn == task.steps[k].dependsOn;
  }

  lemma FinishAdvances(task: Task, k: nat, now: int)
    requires InRound(task, k)
    ensures var done := UpdateStep(task, SucceedUpdate(k), None, now);
            done.Ok? && |done.value.steps| == |task.steps| && Progress(done.value, k + 1)
  {
    assert DependenciesMet(task.steps, k);
    var u := SucceedUpdate(k);
    TrustedSurvives(task.evidence, Evidence(u.kind, u.reference, true, Some(u.index)));
    var t2 := UpdateStep(task, u, None, now).value;
    assert k + 1 < |task.steps| ==> t2.steps[k + 1] == task.steps[k + 1] && !Done(t2.steps[k + 1].status);
  }

  lemma RoundAdvances(task: Task, k: nat, now: int)
    requires Progress(task, k) && k < |task.steps|
    ensures var running := UpdateStep(task, RunUpdate(k), None, now);
            && running.Ok?
            && var done := UpdateStep(running.value, SucceedUpdate(k), None, now);
               done.Ok? && |done.value.steps| == |task.steps| && Progress(done.value, k + 1)
  {
    StartAdvances(task, k, now);
    FinishAdvances(UpdateStep(task, RunUpdate(k), None, now).value, k, now);
  }

  lemma TwoCalls(task: Task, calls: seq<Call>, a: Call, b: Call)
    requires AllAccepted(task, calls)
    requires Perform(AfterAll(task, calls), a).Ok? && Perform(After(AfterAll(task, calls), a), b).Ok?
    ensures AllAccepted(task, calls + [a, b])
    ensures AfterAll(task, calls + [a, b]) == After(After(AfterAll(task, calls), a), b)
  {
    OneCall(task, calls, a);
    OneCall(task, calls + [a], b);
    assert calls + [a, b] == (calls + [a]) + [b];
  }

  lemma OneCall(task: Task, calls: seq<Call>, a: Call)
    requires AllAccepted(task, calls) && Perform(AfterAll(task, calls), a).Ok?
    ensures AllAccepted(task, calls + [a])
    ensures AfterAll(task, calls + [a]) == After(AfterAll(task, calls), a)
  {
    var longer := calls + [a];
    assert longer[..|calls|] == calls;
    forall i | 0 <= i < |longer|
      ensures Perform(AfterAll(task, longer[..i]), longer[i]).Ok?
    {
      if i < |calls| {
        assert longer[..i] == calls[..i];
      }
    }
  }

  lemma {:induction false} DriverProgress(task: Task, now: int, rounds: nat)
    requires Progress(task, 0) && rounds <= |task.steps| && |task.steps| > 0
    ensures var calls := DriverCalls(task, now, rounds);
            && |calls| == 2 * rounds && AllAccepted(task, calls)
            && |AfterAll(task, calls).steps| == |task.steps| && Progress(AfterAll(task, calls), rounds)
  {
    if rounds > 0 {
      var k := rounds - 1;
      DriverProgress(task, now, k);
      var calls := DriverCalls(task, now, k);
      var before := AfterAll(task, calls);
      AdviceInProgress(before, k);
      RoundAdvances(before, k, now);
      TwoCalls(task, calls, UpdateCall(RunUpdate(k), None, now), UpdateCall(SucceedUpdate(k), None, now));
    }
  }

  lemma LastRound(task: Task, now: int)
    requires Progress(task, |task.steps|) && |task.steps| > 0
    ensures Round(task, now) == [TransitionCall(Completed, "", None, now)]
    ensures Perform(task, TransitionCall(Completed, "", None, now)).Ok?
    ensures After(task, TransitionCall(Completed, "", None, now)).status.Completed?
  {
    AdviceInProgress(task, |task.steps|);
  }

  lemma FreshTaskProgress(id: string, d: Definition)
    requires NewTask(id, d).Ok?
    ensures Progress(NewTask(id, d).value, 0) && |NewTask(id, d).value.steps| == |d.steps| > 0
  {
    NormalizeAllMeaning(d.steps);
  }

  /** A driver that follows the advice takes any freshly created task of `n` steps to completed
      in exactly `2n + 1` calls, every one of them accepted. */
  lemma DriverCompletesTheTask(id: string, d: Definition, now: int)
    requires NewTask(id, d).Ok?
    ensures var task := NewTask(id, d).value;
            var calls := DriverCalls(task, now, |d.steps| + 1);
            && |calls| == 2 * |d.steps| + 1 && AllAccepted(task, calls)
            && AfterAll(task, calls).status.Completed?
  {
    FreshTaskProgress(id, d);
    DriverFinishes(NewTask(id, d).value, now);
  }

  lemma DriverFinishes(task: Task, now: int)
    requires Progress(task, 0) && |task.steps| > 0
    ensures var calls := DriverCalls(task, now, |task.steps| + 1);
            && |calls| == 2 * |task.steps| + 1 && AllAccepted(task, calls)
            && AfterAll(task, calls).status.Completed?
  {
    var n := |task.steps|;
    DriverProgress(task, now, n);
    var calls := DriverCalls(task, now, n);
    LastRound(AfterAll(task, calls), now);
    OneCall(task, calls, TransitionCall(Completed, "", None, now));
  }

  // ---------------------------------------------------------------- the engine

  class TaskEngine {
    var tasks: map<string, Task>

    constructor ()
      ensures tasks == map[]
    {
      tasks := map[];
    }

    /** The inner loop: every listed entry must be an earlier index, and is kept once. */
    method ListedDependencies(items: seq<Dependency>, index: nat) returns (r: Result<seq<int>, TaskError>)
      ensures r == ReadDependencies(items, index)
    {
      var dependsOn := [];
      for k := 0 to |items|
        invariant ReadDependencies(items[..k], index) == Ok(dependsOn)
      {
        assert items[..k + 1][..k] == items[..k];
        if items[k].OtherValue? || !(0 <= items[k].index < index) {
          DependencyFailureSpreads(items, k + 1, index);
          return Err(if items[k].OtherValue? then DependencyNotAnInteger else ForwardDependency);
        }
        if items[k].index !in dependsOn {
          dependsOn := dependsOn + [items[k].index];
        }
      }
      assert items[..|items|] == items;
      r := Ok(dependsOn);
    }

    method NormalizeSteps(raws: seq<RawStep>) returns (r: Result<seq<Step>, TaskError>)
      ensures r == Tasks.NormalizeSteps(raws)
    {
      if raws == [] {
        return Err(NoSteps);
      }
      if |raws| > MAX_STEPS {
        return Err(TooManySteps);
      }
      var normalized := [];
      for index := 0 to |raws|
        invariant NormalizeAll(raws[..index]) == Ok(normalized)
      {
        assert raws[..index + 1][..index] == raws[..index];
        var raw := raws[index];
        if raw.title == "" || raw.risk.UnknownRisk? {
          FailureSpreads(raws, index + 1);
          return Err(if raw.title == "" then EmptyTitle else UnknownRiskLevel);
        }
        var dependsOn := [];
        if raw.dependencies.DependencyList? {
          var listed := ListedDependencies(raw.dependencies.items, index);
          if listed.Err? {
            FailureSpreads(raws, index + 1);
            return Err(listed.error);
          }
          dependsOn := listed.value;
        } else if index > 0 {
          dependsOn := [index - 1];
        }
        normalized := normalized + [Step(raw.title, raw.risk, dependsOn, StepPending, NoApproval, None, None, "", [])];
      }
      assert raws[..|raws|] == raws;
      r := Ok(normalized);
    }

    method Create(id: string, d: Definition) returns (r: Result<Task, TaskError>)
      requires id !in tasks
      modifies this
      ensures r == NewTask(id, d)
      ensures tasks == if r.Ok? then old(tasks)[id := r.value] else old(tasks)
    {
      if d.title == "" || d.ownerGoal == "" || d.acceptance == [] || d.evidencePlan == [] {
        return Err(IncompleteDefinition);
      }
      if d.priority.UnknownPriority? {
        return Err(IllegalPriority);
      }
      var normalized := NormalizeSteps(d.steps);
      if normalized.Err? {
        return Err(normalized.error);
      }
      var steps, hasChange := normalized.value, false;
      for i := 0 to |steps|
        invariant hasChange <==> exists k :: 0 <= k < i && !steps[k].risk.Read?
      {
        hasChange := hasChange || !steps[i].risk.Read?;
      }
      if hasChange && d.rollbackPlan == "" {
        return Err(RollbackPlanRequired);
      }
      var task := Task(id, Planned, 1, steps, [], None, None, "", "");
      tasks := tasks[id := task];
      r := Ok(task);
    }

    method AddEvidence(
      id: string, kind: EvidenceKind, reference: Reference, stepIndex: Option<int>, expected: Option<int>)
      returns (r: Result<Task, TaskError>)
      modifies this
      ensures id !in old(tasks) ==> r.Err?
      ensures id in old(tasks) ==> r == Tasks.AddEvidence(old(tasks)[id], kind, reference, stepIndex, expected)
      ensures tasks == if r.Ok? then old(tasks)[id := r.value] else old(tasks)
    {
      if kind.UnknownEvidence? {
        return Err(UnknownKind);
      }
      if reference.NoReference? || reference.MalformedRef? {
        return Err(IllegalReference);
      }
      if id !in tasks {
        return Err(NotFound);
      }
      var task := tasks[id];
      if expected.Some? && expected.value != task.revision {
        return Err(RevisionConflict);
      }
      var record := Evidence(kind, reference, Trusted(kind, reference), stepIndex);
      task := task.(evidence := LastN(task.evidence + [record], MAX_EVIDENCE));
      if stepIndex.Some? {
        if stepIndex.value < 0 || stepIndex.value >= |task.steps| {
          return Err(StepOutOfRange);
        }
        var step := task.steps[stepIndex.value];
        task := task.(steps := task.steps[stepIndex.value := step.(evidenceRefs := step.evidenceRefs + [reference])]);
      }
      task := task.(revision := task.revision + 1);
      tasks := tasks[id := task];
      r := Ok(task);
    }

    method Transition(id: string, to: TaskStatus, reason: string, expected: Option<int>, now: int)
      returns (r: Result<Task, TaskError>)
      modifies this
      ensures id !in old(tasks) ==> r.Err?
      ensures id in old(tasks) ==> r == Tasks.Transition(old(tasks)[id], to, reason, expected, now)
      ensures tasks == if r.Ok? then old(tasks)[id := r.value] else old(tasks)
    {
      if to.UnknownTaskStatus? {
        return Err(UnknownStatus);
      }
      if id !in tasks {
        return Err(NotFound);
      }
      var task := tasks[id];
      var before := task;
      if expected.Some? && expected.value != task.revision {
        return Err(RevisionConflict);
      }
      if !TaskMayMove(task.status, to) {
        return Err(IllegalTransition);
      }
      if (to.Failed? || to.Cancelled?) && reason == "" {
        return Err(ReasonRequired);
      }
      if to.Completed? {
        if !AllDone(task.steps) {
          return Err(IncompleteSteps);
        }
        if !HasTrusted(task.evidence) {
          return Err(NoTrustedEvidence);
        }
      }
      task := task.(status := to);
      if to.Running? && task.startedAt.None? {
        task := task.(startedAt := Some(now));
      }
      if TerminalStatus(to) {
        task := task.(finishedAt := Some(now));
      }
      if to.Failed? {
        task := task.(failureReason := reason);
      }
      if to.Cancelled? {
        var steps := CancelSteps(task.steps, now);
        task := task.(cancelReason := reason, steps := steps);
      }
      task := task.(revision := task.revision + 1);
      tasks := tasks[id := task];
      r := Ok(task);
    }

    method CancelSteps(before: seq<Step>, now: int) returns (steps: seq<Step>)
      ensures steps == CancelOpenSteps(before, now)
    {
      steps := before;
      for i := 0 to |before|
        invariant |steps| == |before|
        invariant forall k :: 0 <= k < i ==> steps[k] == CancelOpenSteps(before, now)[k]
        invariant forall k :: i <= k < |before| ==> steps[k] == before[k]
      {
        if !Ended(steps[i].status) {
          steps := steps[i := steps[i].(status := StepCancelled, finishedAt := Some(now))];
        }
      }
    }

    method UpdateStep(id: string, u: StepUpdate, expected: Option<int>, now: int) returns (r: Result<Task, TaskError>)
      modifies this
      ensures id !in old(tasks) ==> r == Err(NotFound)
      ensures id in old(tasks) ==> r == Tasks.UpdateStep(old(tasks)[id], u, expected, now)
      ensures tasks == if r.Ok? then old(tasks)[id := r.value] else old(tasks)
    {
      if id !in tasks {
        return Err(NotFound);
      }
      var task := tasks[id];
      var rejected := RejectUpdate(task, u, expected);
      if rejected.Some? {
        return Err(rejected.value);
      }
      if u.reference.NoReference? {
        task := Touched(task, u, now);
      } else {
        var recorded := AddEvidence(id, u.kind, u.reference, Some(u.index), Some(task.revision));
        if recorded.Err? {
          return Err(recorded.error);
        }
        task := TouchedAfterEvidence(recorded.value, u, now);
      }
      task := Settled(task, u);
      tasks := tasks[id := task];
      r := Ok(task);
    }

    method NextAction(id: string) returns (r: Result<Advice, TaskError>)
      ensures r == if id in tasks then Ok(AdviceFor(tasks[id])) else Err(NotFound)
    {
      if id !in tasks {
        return Err(NotFound);
      }
      var task := tasks[id];
      if TerminalStatus(task.status) {
        return Ok(NothingToDo);
      }
      var waiting := ScanFor(task.steps, StepWaiting);
      if waiting.Some? {
        return Ok(WaitForApproval(waiting.value));
      }
      var failed := ScanFor(task.steps, StepFailed);
      if failed.Some? {
        return Ok(ReviewFailure(failed.value));
      }
      for i := 0 to |task.steps|
        invariant FirstReady(task.steps, 0) == FirstReady(task.steps, i)
      {
        if task.steps[i].status.StepPending? && DependenciesMet(task.steps, i) {
          return Ok(ExecuteStep(i));
        }
      }
      if AllDone(task.steps) {
        return Ok(if HasTrusted(task.evidence) then CompleteTask else CollectEvidence);
      }
      r := Ok(Wait);
    }

    method ScanFor(steps: seq<Step>, status: StepStatus) returns (found: Option<nat>)
      ensures found == FirstWith(steps, status, 0)
    {
      for i := 0 to |steps|
        invariant FirstWith(steps, status, 0) == FirstWith(steps, status, i)
      {
        if steps[i].status == status {
          return Some(i);
        }
      }
      found := None;
    }
  }

  lemma {:induction false} FailureSpreads(raws: seq<RawStep>, n: nat)
    requires n <= |raws| && NormalizeAll(raws[..n]).Err?
    ensures NormalizeAll(raws) == NormalizeAll(raws[..n])
    decreases |raws| - n
  {
    if n == |raws| {
      assert raws[..n] == raws;
    } else {
      assert raws[..n + 1][..n] == raws[..n];
      FailureSpreads(raws, n + 1);
    }
  }

  lemma {:induction false} DependencyFailureSpreads(items: seq<Dependency>, n: nat, index: nat)
    requires n <= |items| && ReadDependencies(items[..n], index).Err?
    ensures ReadDependencies(items, index) == ReadDependencies(items[..n], index)
    decreases |items| - n
  {
    if n == |items| {
      assert items[..n] == items;
    } else {
      assert items[..n + 1][..n] == items[..n];
      DependencyFailureSpreads(items, n + 1, index);
    }
  }
}
