/** Governed tasks: a task-level and a step-level state machine over a dependency graph, with
    evidence and optimistic revisions. Every mutation is a function of the stored task. */
module Tasks {
  import opened Common

  const MAX_STEPS := 50
  const MAX_EVIDENCE := 200

  datatype TaskStatus =
    | Proposed | Planned | Running | WaitingApproval | Paused | Verifying | Completed | Failed | Cancelled
    | UnknownTaskStatus(text: string)

  datatype StepStatus =
    | StepPending | StepRunning | StepWaiting | StepSucceeded | StepFailed | StepSkipped | StepCancelled
    | UnknownStepStatus(text: string)

  datatype Risk = Read | Change | Privileged | Irreversible | UnknownRisk(text: string)

  datatype EvidenceKind =
    | OperationEvidence | ValidationEvidence | TestEvidence | ArtifactEvidence | ApprovalEvidence
    | LogEvidence | PromotionEvidence | NoteEvidence | UnknownEvidence(text: string)

  /** An evidence reference, by the pattern it matches. */
  datatype Reference =
    | NoReference | OperationRef(number: nat) | ValidationRef(number: nat) | PromotionRef(name: string)
    | TestRef(path: string) | PlainRef(text: string) | MalformedRef(text: string)

  datatype ApprovalId =
    NoApproval | OpRequest(name: string) | AuthRequest(name: string) | MalformedApproval(text: string)

  datatype Evidence = Evidence(kind: EvidenceKind, reference: Reference, trusted: bool, stepIndex: Option<int>)

  datatype Step = Step(
    title: string,
    risk: Risk,
    dependsOn: seq<int>,
    status: StepStatus,
    approvalRequestId: ApprovalId,
    startedAt: Option<int>,
    finishedAt: Option<int>,
    note: string,
    evidenceRefs: seq<Reference>)

  datatype Task = Task(
    id: string,
    status: TaskStatus,
    revision: nat,
    steps: seq<Step>,
    evidence: seq<Evidence>,
    startedAt: Option<int>,
    finishedAt: Option<int>,
    failureReason: string,
    cancelReason: string)

  datatype TaskError =
    | NotFound | UnknownStatus | RevisionConflict | IllegalTransition | ReasonRequired | IncompleteSteps
    | NoTrustedEvidence | TerminalTask | StepOutOfRange | DependenciesUnmet | ReadStepCannotWait
    | ApprovalIdRequired | EvidenceRequired | UnknownKind | IllegalReference
    | NoSteps | TooManySteps | EmptyTitle | UnknownRiskLevel | DependencyNotAnInteger | ForwardDependency
    | IncompleteDefinition | IllegalPriority | RollbackPlanRequired

  predicate TaskMayMove(from: TaskStatus, to: TaskStatus) {
    match from
    case Proposed => to.Planned? || to.Cancelled?
    case Planned => to.Running? || to.Paused? || to.Cancelled?
    case Running => to.WaitingApproval? || to.Paused? || to.Verifying? || to.Failed? || to.Cancelled?
    case WaitingApproval => to.Running? || to.Paused? || to.Failed? || to.Cancelled?
    case Paused => to.Running? || to.Cancelled?
    case Verifying => to.Completed? || to.Running? || to.Failed? || to.Cancelled?
    case Failed => to.Planned? || to.Cancelled?
    case _ => false
  }

  predicate StepMayMove(from: StepStatus, to: StepStatus) {
    match from
    case StepPending => to.StepRunning? || to.StepWaiting? || to.StepSkipped? || to.StepCancelled?
    case StepRunning => to.StepWaiting? || to.StepSucceeded? || to.StepFailed? || to.StepCancelled?
    case StepWaiting => to.StepRunning? || to.StepSucceeded? || to.StepFailed? || to.StepCancelled?
    case StepFailed => to.StepPending? || to.StepRunning? || to.StepCancelled?
    case _ => false
  }

  predicate TerminalStatus(status: TaskStatus) {
    status.Completed? || status.Cancelled?
  }

  predicate Done(status: StepStatus) {
    status.StepSucceeded? || status.StepSkipped?
  }

  predicate Ended(status: StepStatus) {
    Done(status) || status.StepFailed? || status.StepCancelled?
  }

  predicate AllDone(steps: seq<Step>) {
    forall i :: 0 <= i < |steps| ==> Done(steps[i].status)
  }

  predicate DependenciesMet(steps: seq<Step>, i: nat)
    requires i < |steps|
  {
    forall d :: d in steps[i].dependsOn ==> 0 <= d < |steps| && Done(steps[d].status)
  }

  predicate Trusted(kind: EvidenceKind, reference: Reference) {
    match kind
    case OperationEvidence => reference.OperationRef?
    case ValidationEvidence => reference.ValidationRef?
    case PromotionEvidence => reference.PromotionRef?
    case TestEvidence => reference.TestRef?
    case _ => false
  }

  predicate HasTrusted(evidence: seq<Evidence>) {
    exists i :: 0 <= i < |evidence| && evidence[i].trusted
  }

  predicate RevisionMatches(task: Task, expected: Option<int>) {
    expected.Some? ==> expected.value == task.revision
  }

  // ---------------------------------------------------------------- the three mutations

  function AddEvidence(
    task: Task, kind: EvidenceKind, reference: Reference, stepIndex: Option<int>, expected: Option<int>
  ): Result<Task, TaskError>
  {
    if kind.UnknownEvidence? then Err(UnknownKind)
    else if reference.NoReference? || reference.MalformedRef? then Err(IllegalReference)
    else if !RevisionMatches(task, expected) then Err(RevisionConflict)
    else if stepIndex.Some? && !(0 <= stepIndex.value < |task.steps|) then Err(StepOutOfRange)
    else
      var record := Evidence(kind, reference, Trusted(kind, reference), stepIndex);
      var steps := if stepIndex.None? then task.steps
                   else var i := stepIndex.value;
                        task.steps[i := task.steps[i].(evidenceRefs := task.steps[i].evidenceRefs + [reference])];
      Ok(task.(
         evidence := LastN(task.evidence + [record], MAX_EVIDENCE), steps := steps, revision := task.revision + 1))
  }

  /** Cancelling a task cancels every step that has not ended. */
  function CancelOpenSteps(steps: seq<Step>, now: int): (r: seq<Step>)
    ensures |r| == |steps|
    ensures forall i :: 0 <= i < |steps| ==>
              r[i] == if Ended(steps[i].status) then steps[i]
                      else steps[i].(status := StepCancelled, finishedAt := Some(now))
  {
    seq(|steps|, i requires 0 <= i < |steps| =>
      if Ended(steps[i].status) then steps[i] else steps[i].(status := StepCancelled, finishedAt := Some(now)))
  }

  function Transition(
    task: Task, to: TaskStatus, reason: string, expected: Option<int>, now: int
  ): Result<Task, TaskError>
  {
    if to.UnknownTaskStatus? then Err(UnknownStatus)
    else if !RevisionMatches(task, expected) then Err(RevisionConflict)
    else if !TaskMayMove(task.status, to) then Err(IllegalTransition)
    else if (to.Failed? || to.Cancelled?) && reason == "" then Err(ReasonRequired)
    else if to.Completed? && !AllDone(task.steps) then Err(IncompleteSteps)
    else if to.Completed? && !HasTrusted(task.evidence) then Err(NoTrustedEvidence)
    else
      Ok(task.(
         status := to,
         startedAt := if to.Running? && task.startedAt.None? then Some(now) else task.startedAt,
         finishedAt := if TerminalStatus(to) then Some(now) else task.finishedAt,
         failureReason := if to.Failed? then reason else task.failureReason,
         cancelReason := if to.Cancelled? then reason else task.cancelReason,
         steps := if to.Cancelled? then CancelOpenSteps(task.steps, now) else task.steps,
         revision := task.revision + 1))
  }

  datatype StepUpdate = StepUpdate(
    index: int,
    to: StepStatus,
    note: string,
    reference: Reference,
    kind: EvidenceKind,
    approvalId: ApprovalId)

  /** The checks an update must pass before anything is touched. */
  function RejectUpdate(task: Task, u: StepUpdate, expected: Option<int>): Option<TaskError> {
    if !RevisionMatches(task, expected) then Some(RevisionConflict)
    else if TerminalStatus(task.status) then Some(TerminalTask)
    else if !(0 <= u.index < |task.steps|) then Some(StepOutOfRange)
    else
      var step := task.steps[u.index];
      if !StepMayMove(step.status, u.to) then Some(IllegalTransition)
      else if (u.to.StepRunning? || u.to.StepSucceeded?) && !DependenciesMet(task.steps, u.index) then
        Some(DependenciesUnmet)
      else if u.to.StepWaiting? && step.risk.Read? then Some(ReadStepCannotWait)
      else if u.to.StepWaiting? && !u.approvalId.OpRequest? && !u.approvalId.AuthRequest? then Some(ApprovalIdRequired)
      else if u.to.StepSucceeded? && u.reference.NoReference? then Some(EvidenceRequired)
      else None
  }

  /** The step and task status written when no evidence reference comes with the update. */
  function Touched(task: Task, u: StepUpdate, now: int): Task
    requires 0 <= u.index < |task.steps|
  {
    var step := task.steps[u.index];
    var starts := u.to.StepRunning? && step.startedAt.None?;
    task.(
      steps := task.steps[u.index := step.(
        status := u.to,
        note := u.note,
        approvalRequestId := if u.to.StepWaiting? then u.approvalId else step.approvalRequestId,
        startedAt := if starts then Some(now) else step.startedAt,
        finishedAt := if Ended(u.to) then Some(now) else step.finishedAt)],
      status := if u.to.StepWaiting? then WaitingApproval else if starts then Running else task.status)
  }

  /** With an evidence reference the task is read again after the evidence is stored, so only
      status, note and finish time of the step survive from the update itself. */
  function TouchedAfterEvidence(task: Task, u: StepUpdate, now: int): Task
    requires 0 <= u.index < |task.steps|
  {
    var step := task.steps[u.index];
    task.(steps := task.steps[u.index := step.(
      status := u.to, note := u.note, finishedAt := if Ended(u.to) then Some(now) else step.finishedAt)])
  }

  /** The task status an update leaves behind, and the new revision. */
  function Settled(task: Task, u: StepUpdate): Task {
    var t := task.(revision := task.revision + 1);
    if u.to.StepFailed? then t.(status := Failed, failureReason := if u.note == "" then "step failed" else u.note)
    else if AllDone(t.steps) then t.(status := Verifying)
    else if !u.to.StepWaiting? then t.(status := Running)
    else t
  }

  function UpdateStep(task: Task, u: StepUpdate, expected: Option<int>, now: int): Result<Task, TaskError> {
    match RejectUpdate(task, u, expected)
    case Some(error) => Err(error)
    case None =>
      if u.reference.NoReference? then Ok(Settled(Touched(task, u, now), u))
      else
        match AddEvidence(task, u.kind, u.reference, Some(u.index), Some(task.revision))
        case Err(error) => Err(error)
        case Ok(t) => Ok(Settled(TouchedAfterEvidence(t, u, now), u))
  }

  datatype Call =
    | EvidenceCall(kind: EvidenceKind, reference: Reference, stepIndex: Option<int>, expected: Option<int>)
    | TransitionCall(to: TaskStatus, reason: string, expected: Option<int>, now: int)
    | UpdateCall(update: StepUpdate, expected: Option<int>, now: int)

  function Perform(task: Task, call: Call): Result<Task, TaskError> {
    match call
    case EvidenceCall(kind, reference, stepIndex, expected) => AddEvidence(task, kind, reference, stepIndex, expected)
    case TransitionCall(to, reason, expected, now) => Transition(task, to, reason, expected, now)
    case UpdateCall(u, expected, now) => UpdateStep(task, u, expected, now)
  }

  /** The stored task after a call; a rejected call stores nothing. */
  function After(task: Task, call: Call): Task {
    match Perform(task, call)
    case Ok(t) => t
    case Err(_) => task
  }

  function AfterAll(task: Task, calls: seq<Call>): Task {
    if calls == [] then task else After(AfterAll(task, calls[..|calls| - 1]), calls[|calls| - 1])
  }

  // ---------------------------------------------------------------- creation

  datatype Dependency = IntegerDependency(index: int) | OtherValue

  datatype RawDependencies = DependencyList(items: seq<Dependency>) | NotAList

  datatype RawStep = RawStep(title: string, risk: Risk, dependencies: RawDependencies)

  /** The dependency list of step `index`: every entry must name an earlier step; repeats are dropped. */
  function ReadDependencies(items: seq<Dependency>, index: nat): Result<seq<int>, TaskError> {
    if items == [] then Ok([])
    else
      match ReadDependencies(items[..|items| - 1], index)
      case Err(error) => Err(error)
      case Ok(earlier) =>
        match items[|items| - 1]
        case OtherValue => Err(DependencyNotAnInteger)
        case IntegerDependency(d) => if 0 <= d < index then Ok(AddOnce(earlier, d)) else Err(ForwardDependency)
  }

  function NormalizeStep(raw: RawStep, index: nat): Result<Step, TaskError> {
    if raw.title == "" then Err(EmptyTitle)
    else if raw.risk.UnknownRisk? then Err(UnknownRiskLevel)
    else
      var dependsOn := match raw.dependencies
        case DependencyList(items) => ReadDependencies(items, index)
        case NotAList => if index > 0 then Ok([index - 1]) else Ok([]);
      match dependsOn
      case Err(error) => Err(error)
      case Ok(ds) => Ok(Step(raw.title, raw.risk, ds, StepPending, NoApproval, None, None, "", []))
  }

  function NormalizeAll(raws: seq<RawStep>): Result<seq<Step>, TaskError> {
    if raws == [] then Ok([])
    else
      match NormalizeAll(raws[..|raws| - 1])
      case Err(error) => Err(error)
      case Ok(steps) =>
        match NormalizeStep(raws[|raws| - 1], |raws| - 1)
        case Err(error) => Err(error)
        case Ok(step) => Ok(steps + [step])
  }

  function NormalizeSteps(raws: seq<RawStep>): Result<seq<Step>, TaskError> {
    if raws == [] then Err(NoSteps)
    else if |raws| > MAX_STEPS then Err(TooManySteps)
    else NormalizeAll(raws)
  }

  datatype Priority = P0 | P1 | P2 | P3 | UnknownPriority(text: string)

  datatype Definition = Definition(
    title: string,
    ownerGoal: string,
    priority: Priority,
    steps: seq<RawStep>,
    acceptance: seq<string>,
    evidencePlan: seq<string>,
    rollbackPlan: string)

  function NewTask(id: string, d: Definition): Result<Task, TaskError> {
    if d.title == "" || d.ownerGoal == "" || d.acceptance == [] || d.evidencePlan == [] then Err(IncompleteDefinition)
    else if d.priority.UnknownPriority? then Err(IllegalPriority)
    else
      match NormalizeSteps(d.steps)
      case Err(error) => Err(error)
      case Ok(steps) =>
        if (exists i :: 0 <= i < |steps| && !steps[i].risk.Read?) && d.rollbackPlan == "" then Err(RollbackPlanRequired)
        else Ok(Task(id, Planned, 1, steps, [], None, None, "", ""))
  }

  ghost predicate BackwardDependencies(steps: seq<Step>) {
    forall i, d :: 0 <= i < |steps| && d in steps[i].dependsOn ==> 0 <= d < i
  }

  lemma {:induction false} ReadDependenciesMeaning(items: seq<Dependency>, index: nat)
    ensures ReadDependencies(items, index).Ok? <==>
            forall k :: 0 <= k < |items| ==> items[k].IntegerDependency? && 0 <= items[k].index < index
    ensures ReadDependencies(items, index).Ok? ==>
              NoDuplicates(ReadDependencies(items, index).value)
              && forall d :: d in ReadDependencies(items, index).value <==> IntegerDependency(d) in items
  {
    if items != [] {
      var n := |items| - 1;
      ReadDependenciesMeaning(items[..n], index);
      assert items == items[..n] + [items[n]];
    }
  }

  lemma {:induction false} NormalizeAllMeaning(raws: seq<RawStep>)
    ensures NormalizeAll(raws).Ok? ==>
              var steps := NormalizeAll(raws).value;
              && |steps| == |raws| && BackwardDependencies(steps)
              && (forall i :: 0 <= i < |steps| ==>
                    steps[i].status.StepPending? && steps[i].startedAt.None? && steps[i].risk == raws[i].risk)
              && (forall i, d :: 0 <= i < |steps| && raws[i].dependencies.DependencyList? ==>
                    (d in steps[i].dependsOn <==> IntegerDependency(d) in raws[i].dependencies.items))
  {
    if raws != [] {
      var n := |raws| - 1;
      NormalizeAllMeaning(raws[..n]);
      if raws[n].dependencies.DependencyList? {
        ReadDependenciesMeaning(raws[n].dependencies.items, n);
      }
    }
  }

  // ---------------------------------------------------------------- invariants of every task

  ghost predicate TaskInvariant(task: Task) {
    && BackwardDependencies(task.steps)
    && (forall i :: 0 <= i < |task.steps| ==> !task.steps[i].status.UnknownStepStatus?)
    && (forall i :: 0 <= i < |task.steps| && (task.steps[i].status.StepRunning? || task.steps[i].status.StepSucceeded?)
                    ==> DependenciesMet(task.steps, i))
    && (task.status.Completed? ==> AllDone(task.steps))
    && (task.status.Cancelled? ==> forall i :: 0 <= i < |task.steps| ==> Ended(task.steps[i].status))
  }

  lemma NewTaskInvariant(id: string, d: Definition)
    requires NewTask(id, d).Ok?
    ensures TaskInvariant(NewTask(id, d).value)
  {
    NormalizeAllMeaning(d.steps);
  }

  /** Replacing step statuses keeps dependencies met as long as no finished step is undone and
      whatever becomes running or succeeded had its dependencies met. */
  lemma StepsKeepDependencies(before: seq<Step>, after: seq<Step>)
    requires |after| == |before|
    requires forall i :: 0 <= i < |before| ==> after[i].dependsOn == before[i].dependsOn
    requires forall i :: 0 <= i < |before| && Done(before[i].status) ==> Done(after[i].status)
    requires forall i :: 0 <= i < |after| && (after[i].status.StepRunning? || after[i].status.StepSucceeded?) ==>
               DependenciesMet(before, i)
    ensures forall i :: 0 <= i < |after| && (after[i].status.StepRunning? || after[i].status.StepSucceeded?) ==>
              DependenciesMet(after, i)
  {
    forall i | 0 <= i < |after| && (after[i].status.StepRunning? || after[i].status.StepSucceeded?)
      ensures DependenciesMet(after, i)
    {
      assert DependenciesMet(before, i);
    }
  }

  lemma AddEvidenceKeepsInvariant(
    task: Task, kind: EvidenceKind, reference: Reference, stepIndex: Option<int>, expected: Option<int>)
    requires TaskInvariant(task) && AddEvidence(task, kind, reference, stepIndex, expected).Ok?
    ensures TaskInvariant(AddEvidence(task, kind, reference, stepIndex, expected).value)
  {
    StepsKeepDependencies(task.steps, AddEvidence(task, kind, reference, stepIndex, expected).value.steps);
  }

  lemma TransitionKeepsInvariant(task: Task, to: TaskStatus, reason: string, expected: Option<int>, now: int)
    requires TaskInvariant(task) && Transition(task, to, reason, expected, now).Ok?
    ensures TaskInvariant(Transition(task, to, reason, expected, now).value)
  {
    StepsKeepDependencies(task.steps, Transition(task, to, reason, expected, now).value.steps);
  }

  /** What an accepted update does to the steps, on either path. */
  lemma UpdateEffect(task: Task, u: StepUpdate, expected: Option<int>, now: int)
    requires UpdateStep(task, u, expected, now).Ok?
    ensures var t := UpdateStep(task, u, expected, now).value;
            && 0 <= u.index < |task.steps| && |t.steps| == |task.steps|
            && !TerminalStatus(task.status) && StepMayMove(task.steps[u.index].status, u.to)
            && t.steps[u.index].status == u.to
            && ((u.to.StepRunning? || u.to.StepSucceeded?) ==> DependenciesMet(task.steps, u.index))
            && (forall i :: 0 <= i < |task.steps| ==> t.steps[i].dependsOn == task.steps[i].dependsOn)
            && (forall i :: 0 <= i < |task.steps| && i != u.index ==> t.steps[i] == task.steps[i])
            && !TerminalStatus(t.status)
            && t.revision == task.revision + (if u.reference.NoReference? then 1 else 2)
  {
  }

  lemma UpdateKeepsInvariant(task: Task, u: StepUpdate, expected: Option<int>, now: int)
    requires TaskInvariant(task) && UpdateStep(task, u, expected, now).Ok?
    ensures TaskInvariant(UpdateStep(task, u, expected, now).value)
  {
    UpdateEffect(task, u, expected, now);
    StepsKeepDependencies(task.steps, UpdateStep(task, u, expected, now).value.steps);
  }

  lemma CallKeepsInvariant(task: Task, call: Call)
    requires TaskInvariant(task)
    ensures TaskInvariant(After(task, call))
  {
    if Perform(task, call).Ok? {
      match call
      case EvidenceCall(kind, reference, stepIndex, expected) =>
        AddEvidenceKeepsInvariant(task, kind, reference, stepIndex, expected);
      case TransitionCall(to, reason, expected, now) => TransitionKeepsInvariant(task, to, reason, expected, now);
      case UpdateCall(u, expected, now) => UpdateKeepsInvariant(task, u, expected, now);
    }
  }

  /** In every reachable task: running and succeeded steps have their dependencies done, a
      completed task has only done steps, a cancelled task has no open step. */
  lemma {:induction false} ReachableTasksAreConsistent(id: string, d: Definition, calls: seq<Call>)
    requires NewTask(id, d).Ok?
    ensures TaskInvariant(AfterAll(NewTask(id, d).value, calls))
  {
    if calls == [] {
      NewTaskInvariant(id, d);
    } else {
      ReachableTasksAreConsistent(id, d, calls[..|calls| - 1]);
      CallKeepsInvariant(AfterAll(NewTask(id, d).value, calls[..|calls| - 1]), calls[|calls| - 1]);
    }
  }

  ghost predicate SameProgress(before: Task, after: Task) {
    && after.status == before.status && |after.steps| == |before.steps|
    && forall i :: 0 <= i < |before.steps| ==> after.steps[i].status == before.steps[i].status
  }

  /** Completed and cancelled are absorbing under every call: only evidence can still be added. */
  lemma {:induction false} TerminalIsAbsorbing(task: Task, calls: seq<Call>)
    requires TerminalStatus(task.status)
    ensures SameProgress(task, AfterAll(task, calls))
  {
    if calls != [] {
      TerminalIsAbsorbing(task, calls[..|calls| - 1]);
    }
  }

  /** Finished steps stay finished: a succeeded or skipped step keeps its status through any
      calls, and a cancelled one too, so a task with a cancelled step can never complete. */
  lemma {:induction false} FinishedStepsStay(task: Task, calls: seq<Call>, i: nat)
    requires TaskInvariant(task) && i < |task.steps|
    requires Done(task.steps[i].status) || task.steps[i].status.StepCancelled?
    ensures |AfterAll(task, calls).steps| == |task.steps|
    ensures AfterAll(task, calls).steps[i].status == task.steps[i].status
    ensures task.steps[i].status.StepCancelled? ==> !AfterAll(task, calls).status.Completed?
  {
    if calls != [] {
      var n := |calls| - 1;
      FinishedStepsStay(task, calls[..n], i);
      var before := AfterAll(task, calls[..n]);
      if calls[n].UpdateCall? && Perform(before, calls[n]).Ok? {
        UpdateEffect(before, calls[n].update, calls[n].expected, calls[n].now);
      }
    }
  }

  /** A task is completed only from verifying, with every step done and trusted evidence at hand. */
  lemma CompletionIsEarned(task: Task, call: Call)
    requires !task.status.Completed? && After(task, call).status.Completed?
    ensures task.status.Verifying? && AllDone(task.steps)
    ensures exists e :: e in task.evidence && e.trusted
  {
    if call.UpdateCall? && Perform(task, call).Ok? {
      UpdateEffect(task, call.update, call.expected, call.now);
    } else if call.TransitionCall? {
      var i :| 0 <= i < |task.evidence| && task.evidence[i].trusted;
      assert task.evidence[i] in task.evidence;
    }
  }

  /** A step sent to wait is stored with its approval request exactly when the update carries no
      evidence reference (or repeats the stored request): on the evidence path the request id and
      the waiting task status are dropped. */
  lemma WaitingRecordsItsRequest(task: Task, u: StepUpdate, expected: Option<int>, now: int)
    requires u.to.StepWaiting? && UpdateStep(task, u, expected, now).Ok?
    ensures var t := UpdateStep(task, u, expected, now).value;
            && (t.steps[u.index].approvalRequestId == u.approvalId
                <==> u.reference.NoReference? || task.steps[u.index].approvalRequestId == u.approvalId)
            && (t.status.WaitingApproval? <==> u.reference.NoReference? || task.status.WaitingApproval?)
  {
    assert !Done(UpdateStep(task, u, expected, now).value.steps[u.index].status);
  }

  /** The same path drops the start time: a step sent to run is stored with one exactly when it had
      one already or the update carries no evidence reference, and then the new one is `now`. */
  lemma RunningRecordsItsStart(task: Task, u: StepUpdate, expected: Option<int>, now: int)
    requires u.to.StepRunning? && UpdateStep(task, u, expected, now).Ok?
    ensures var t := UpdateStep(task, u, expected, now).value;
            && (t.steps[u.index].startedAt.Some? <==> task.steps[u.index].startedAt.Some? || u.reference.NoReference?)
            && (task.steps[u.index].startedAt.Some? ==> t.steps[u.index].startedAt == task.steps[u.index].startedAt)
            && (task.steps[u.index].startedAt.None? && u.reference.NoReference? ==>
                  t.steps[u.index].startedAt == Some(now))
  {
  }

  /** A task of one change step that nothing has happened to yet. */
  const FRESH: Task :=
    Task("task-1", Planned, 1, [Step("deploy", Change, [], StepPending, NoApproval, None, None, "", [])], [],
         None, None, "", "")

  /** What creating such a task with a rollback plan stores. */
  lemma FreshIsCreated()
    ensures var raw := RawStep("deploy", Change, DependencyList([]));
            NewTask("task-1", Definition("title", "goal", P2, [raw], ["accepted"], ["log"], "undo")) == Ok(FRESH)
  {
    var raw := RawStep("deploy", Change, DependencyList([]));
    assert NormalizeAll([raw][..0]) == Ok([]);
    assert NormalizeStep(raw, 0) == Ok(FRESH.steps[0]);
    assert NormalizeAll([raw]) == Ok([] + [FRESH.steps[0]]);
    assert [] + [FRESH.steps[0]] == FRESH.steps;
    assert !FRESH.steps[0].risk.Read?;
  }

  /** The failing inputs of the two: the step waits without its request id and the task is not waiting; the
      step runs without a start time. */
  lemma EvidencePathForgets()
    ensures var wait := StepUpdate(0, StepWaiting, "", PlainRef("log"), LogEvidence, OpRequest("op-1"));
            var waiting := UpdateStep(FRESH, wait, None, 0);
            && waiting.Ok? && waiting.value.steps[0].status.StepWaiting?
            && waiting.value.steps[0].approvalRequestId == NoApproval && waiting.value.status.Planned?
    ensures var run := StepUpdate(0, StepRunning, "", PlainRef("log"), LogEvidence, NoApproval);
            var running := UpdateStep(FRESH, run, None, 0);
            running.Ok? && running.value.steps[0].status.StepRunning? && running.value.steps[0].startedAt.None?
  {
    var wait := StepUpdate(0, StepWaiting, "", PlainRef("log"), LogEvidence, OpRequest("op-1"));
    var run := StepUpdate(0, StepRunning, "", PlainRef("log"), LogEvidence, NoApproval);
    assert RejectUpdate(FRESH, wait, None).None? && RejectUpdate(FRESH, run, None).None?;
    var waiting, running := UpdateStep(FRESH, wait, None, 0).value, UpdateStep(FRESH, run, None, 0).value;
    assert !Done(waiting.steps[0].status) && !Done(running.steps[0].status);
  }

  /** The update ends the last step that is not done yet. */
  predicate EndsLastOpen(task: Task, u: StepUpdate) {
    Done(u.to) && forall i :: 0 <= i < |task.steps| && i != u.index ==> Done(task.steps[i].status)
  }

  /** After an accepted update all steps are done exactly when it ended the last open one. */
  lemma AllDoneAfterUpdate(task: Task, u: StepUpdate, expected: Option<int>, now: int)
    requires UpdateStep(task, u, expected, now).Ok?
    ensures AllDone(UpdateStep(task, u, expected, now).value.steps) <==> EndsLastOpen(task, u)
  {
    UpdateEffect(task, u, expected, now);
    var steps := UpdateStep(task, u, expected, now).value.steps;
    if EndsLastOpen(task, u) {
      forall i | 0 <= i < |steps|
        ensures Done(steps[i].status)
      {
        assert i != u.index ==> steps[i] == task.steps[i];
      }
    }
    if AllDone(steps) {
      assert Done(steps[u.index].status);
      forall i | 0 <= i < |task.steps| && i != u.index
        ensures Done(task.steps[i].status)
      {
        assert steps[i] == task.steps[i];
      }
    }
  }

  /** Step updates move the task outside the table of task transitions, and a caller can tell
      beforehand: a failing step does so to a task that is not active; ending the last open step, to
      one that is neither running nor verifying; any other step that does not wait, to a proposed
      or failed one; and a waiting step without evidence, to one that is neither running nor
      waiting. */
  lemma UpdateLeavesTheTable(task: Task, u: StepUpdate, expected: Option<int>, now: int)
    requires UpdateStep(task, u, expected, now).Ok? && !task.status.UnknownTaskStatus?
    ensures var status := UpdateStep(task, u, expected, now).value.status;
            status != task.status && !TaskMayMove(task.status, status) <==>
              if u.to.StepFailed? then task.status.Proposed? || task.status.Planned? || task.status.Paused?
              else if EndsLastOpen(task, u) then !task.status.Running? && !task.status.Verifying?
              else if !u.to.StepWaiting? then task.status.Proposed? || task.status.Failed?
              else u.reference.NoReference? && !task.status.Running? && !task.status.WaitingApproval?
  {
    AllDoneAfterUpdate(task, u, expected, now);
  }

  /** One such move of a freshly planned task: skipping its only step puts it into verifying. */
  lemma PlannedToVerifying()
    ensures var skip := StepUpdate(0, StepSkipped, "", NoReference, NoteEvidence, NoApproval);
            var skipped := UpdateStep(FRESH, skip, None, 0);
            skipped.Ok? && skipped.value.status.Verifying? && !TaskMayMove(FRESH.status, skipped.value.status)
  {
    var skip := StepUpdate(0, StepSkipped, "", NoReference, NoteEvidence, NoApproval);
    assert RejectUpdate(FRESH, skip, None).None?;
  }

  // ---------------------------------------------------------------- revisions

  function ExpectedOf(call: Call): Option<int> {
    match call
    case EvidenceCall(_, _, _, expected) => expected
    case TransitionCall(_, _, expected, _) => expected
    case UpdateCall(_, expected, _) => expected
  }

  lemma RevisionRises(task: Task, call: Call)
    ensures Perform(task, call).Ok? ==>
              Perform(task, call).value.revision > task.revision && RevisionMatches(task, ExpectedOf(call))
  {
  }

  lemma {:induction false} RevisionNeverFalls(task: Task, calls: seq<Call>, i: nat)
    requires i <= |calls|
    ensures AfterAll(task, calls[..i]).revision <= AfterAll(task, calls).revision
    decreases |calls|
  {
    if i == |calls| {
      assert calls[..i] == calls;
    } else {
      var init := calls[..|calls| - 1];
      RevisionNeverFalls(task, init, i);
      assert init[..i] == calls[..i];
      RevisionRises(AfterAll(task, init), calls[|calls| - 1]);
    }
  }

  /** Of any calls that expect the same revision, at most one is accepted. */
  lemma OneWinnerPerRevision(task: Task, calls: seq<Call>, i: nat, j: nat)
    requires i < j < |calls|
    requires ExpectedOf(calls[i]).Some? && ExpectedOf(calls[j]) == ExpectedOf(calls[i])
    requires Perform(AfterAll(task, calls[..i]), calls[i]).Ok?
    ensures Perform(AfterAll(task, calls[..j]), calls[j]).Err?
    ensures After(AfterAll(task, calls[..j]), calls[j]) == AfterAll(task, calls[..j])
  {
    RevisionRises(AfterAll(task, calls[..i]), calls[i]);
    RevisionRises(AfterAll(task, calls[..j]), calls[j]);
    assert calls[..i + 1][..i] == calls[..i];
    assert calls[..j][..i + 1] == calls[..i + 1];
    RevisionNeverFalls(task, calls[..j], i + 1);
  }
}
