/** One runner's apply phase inside the full protocol: as long as nobody else changes the target,
    it is a transaction, whatever all other processes do to every other file meanwhile. */
module UpgradeIsolation {
  import opened Common
  import opened OwnerApproval
  import opened UpgradeTransaction
  import opened UpgradeCandidate
  import opened UpgradeProtocol

  predicate InApply(proc: Proc) {
    proc.BackingUp? || proc.Copying? || proc.Comparing? || proc.RollingBack?
  }

  function After(s: State, steps: seq<Step>): State
    decreases |steps|
  {
    if steps == [] then s else After(Next(s, steps[0]), steps[1..])
  }

  /** Process `p` stays in its apply phase, and every step of anyone else leaves the target alone. */
  predicate Undisturbed(s: State, p: nat, steps: seq<Step>)
    decreases |steps|
  {
    steps == [] ||
    (&& InApply(ProcOf(s, p))
     && ((steps[0].Advance? && steps[0].p == p) || Next(s, steps[0]).target == s.target)
     && Undisturbed(Next(s, steps[0]), p, steps[1..]))
  }

  predicate Named(records: seq<Record>, path: Path, from: nat) {
    exists i :: from <= i < |records| && records[i].path == path
  }

  ghost predicate OnlyRecordsChanged(original: Tree, target: Tree, records: seq<Record>) {
    forall path :: !Named(records, path, 0) ==> SameAt(target, original, path)
  }

  /** Each of the first `n` records that none of the records up to `m` overwrites has its content. */
  predicate Hold(target: Tree, records: seq<Record>, n: nat, m: nat)
    requires n <= m <= |records|
  {
    forall k :: 0 <= k < n && (forall j :: k < j < m ==> records[j].path != records[k].path)
      ==> HashAt(target, records[k].path) == Some(records[k].after)
  }

  ghost predicate Committed(original: Tree, target: Tree, records: seq<Record>) {
    OnlyRecordsChanged(original, target, records) && Describes(records, target)
  }

  /** The entries from `left` on have been restored, the others may still be changed. */
  ghost predicate Restored(original: Tree, target: Tree, records: seq<Record>, left: nat) {
    forall path :: (!Named(records, path, 0) || Named(records, path, left)) ==> SameAt(target, original, path)
  }

  ghost predicate Stage(original: Tree, job: Job, proc: Proc, target: Tree) {
    var records := job.request.payload.records;
    var backup := BackupOf(original, records);
    match proc
    case BackingUp(j, _) => j == job && target == original
    case Copying(j, b, i) =>
      j == job && b == backup && i <= |records| && OnlyRecordsChanged(original, target, records)
      && Hold(target, records, i, i)
    case Comparing(j, b, i) =>
      j == job && b == backup && i < |records| && OnlyRecordsChanged(original, target, records)
      && Hold(target, records, i, i + 1)
    case RollingBack(j, b, left) =>
      j == job && b == backup && left <= |records| && |backup.manifest| == |records|
      && Restored(original, target, records, left)
    case Publishing(_, result) =>
      (match result
       case NotApplied => target == original
       case Applied(j) => j == job && Committed(original, target, records))
    case _ => false
  }

  lemma BackupStarts(original: Tree, job: Job, s: State, proc: Proc, choice: Choice)
    requires proc.BackingUp? && Stage(original, job, proc, s.target)
    ensures var (proc', effect) := MoveInApply(s, proc, choice); Stage(original, job, proc', Apply(s, effect).target)
  {
    var (proc', effect) := MoveInApply(s, proc, choice);
    EnteringKeepsTarget(s, effect);
  }

  lemma EnteringKeepsTarget(s: State, effect: Effect)
    requires effect.EnterApply?
    ensures Apply(s, effect).target == s.target
  {
  }

  lemma RollbackStarts(original: Tree, target: Tree, records: seq<Record>)
    requires OnlyRecordsChanged(original, target, records)
    ensures |BackupOf(original, records).manifest| == |records|
    ensures Restored(original, target, records, |records|)
  {
    BackupMeaning(original, records);
  }

  lemma FinishedHolds(target: Tree, records: seq<Record>)
    requires Hold(target, records, |records|, |records|)
    ensures Describes(records, target)
  {
    forall i | 0 <= i < |records| && IsLast(records, i)
      ensures HasApprovedContent(target, records[i])
    {
      assert forall j :: i < j < |records| ==> records[j].path != records[i].path;
      assert HashAt(target, records[i].path) == Some(records[i].after);
    }
  }

  lemma WritingKeeps(original: Tree, target: Tree, records: seq<Record>, i: nat, content: Content)
    requires i < |records| && OnlyRecordsChanged(original, target, records) && Hold(target, records, i, i)
    ensures var target' := target[records[i].path := content];
            OnlyRecordsChanged(original, target', records) && Hold(target', records, i, i + 1)
  {
    var target' := target[records[i].path := content];
    forall path | !Named(records, path, 0)
      ensures SameAt(target', original, path)
    {
      assert path != records[i].path;
      assert SameAt(target, original, path);
    }
    forall k | 0 <= k < i && (forall j :: k < j < i + 1 ==> records[j].path != records[k].path)
      ensures HashAt(target', records[k].path) == Some(records[k].after)
    {
      assert records[i].path != records[k].path;
      assert forall j :: k < j < i ==> records[j].path != records[k].path;
      assert HashAt(target, records[k].path) == Some(records[k].after);
    }
  }

  lemma CopyEnds(original: Tree, job: Job, s: State, proc: Proc, choice: Choice)
    requires proc.Copying? && Stage(original, job, proc, s.target) && proc.next == |job.request.payload.records|
    ensures var (proc', effect) := Move(s, proc, choice); Stage(original, job, proc', Apply(s, effect).target)
  {
    FinishedHolds(s.target, job.request.payload.records);
  }

  lemma CopyRuns(original: Tree, job: Job, s: State, proc: Proc, choice: Choice)
    requires proc.Copying? && Stage(original, job, proc, s.target) && proc.next < |job.request.payload.records|
    requires job.request.payload.records[proc.next].path in s.candidate && !choice.copy.CopyRaises?
    ensures var (proc', effect) := Move(s, proc, choice); Stage(original, job, proc', Apply(s, effect).target)
  {
    var records := job.request.payload.records;
    var content := s.candidate[records[proc.next].path];
    WritingKeeps(original, s.target, records, proc.next, content);
    RollbackStarts(original, s.target[records[proc.next].path := content], records);
  }

  lemma CopyStops(original: Tree, job: Job, s: State, proc: Proc, choice: Choice)
    requires proc.Copying? && Stage(original, job, proc, s.target) && proc.next < |job.request.payload.records|
    requires job.request.payload.records[proc.next].path !in s.candidate || choice.copy.CopyRaises?
    ensures var (proc', effect) := Move(s, proc, choice); Stage(original, job, proc', Apply(s, effect).target)
  {
    RollbackStarts(original, s.target, job.request.payload.records);
  }

  lemma ConfirmedHolds(target: Tree, records: seq<Record>, i: nat)
    requires i < |records| && Hold(target, records, i, i + 1)
    requires HashAt(target, records[i].path) == Some(records[i].after)
    ensures Hold(target, records, i + 1, i + 1)
  {
  }

  lemma CompareAdvances(original: Tree, job: Job, s: State, proc: Proc, choice: Choice)
    requires proc.Comparing? && Stage(original, job, proc, s.target)
    ensures var (proc', effect) := Move(s, proc, choice); Stage(original, job, proc', Apply(s, effect).target)
  {
    var records := job.request.payload.records;
    RollbackStarts(original, s.target, records);
    if HashAt(s.target, records[proc.next].path) == Some(records[proc.next].after) {
      ConfirmedHolds(s.target, records, proc.next);
    }
  }

  /** Restoring entry `left - 1` extends what has been restored. */
  lemma RestoringExtends(original: Tree, target: Tree, records: seq<Record>, left: nat)
    requires 0 < left <= |records| && Restored(original, target, records, left)
    ensures |BackupOf(original, records).manifest| == |records|
    ensures var backup := BackupOf(original, records);
            Restored(original, Restore(target, backup, backup.manifest[left - 1]), records, left - 1)
  {
    var backup := BackupOf(original, records);
    RestoreOne(original, target, records, left - 1);
    BackupMeaning(original, records);
    var target' := Restore(target, backup, backup.manifest[left - 1]);
    forall path | !Named(records, path, 0) || Named(records, path, left - 1)
      ensures SameAt(target', original, path)
    {
      if path != records[left - 1].path {
        if Named(records, path, left - 1) {
          var i :| left - 1 <= i < |records| && records[i].path == path;
          assert Named(records, path, left);
        }
        assert SameAt(target, original, path);
      }
    }
  }

  lemma RollbackEnds(original: Tree, target: Tree, records: seq<Record>)
    requires Restored(original, target, records, 0)
    ensures target == original
  {
    SameEverywhere(target, original);
  }

  lemma WriteEffect(s: State, write: TargetWrite, content: Option<Content>)
    ensures Apply(s, WriteTarget(write, content)).target == Put(s.target, write.path, content)
  {
  }

  /** A rollback step of the protocol restores one backup entry. */
  lemma RollbackStepRestores(s: State, job: Job, backup: Backup, index: nat)
    requires index < |backup.manifest|
    ensures Apply(s, RestoringEffect(job, backup, index)).target == Restore(s.target, backup, backup.manifest[index])
  {
    var entry := backup.manifest[index];
    WriteEffect(s, TargetWrite(job, index, entry.path), SavedContent(backup, entry));
  }

  lemma RollbackAdvances(original: Tree, job: Job, s: State, proc: Proc, choice: Choice)
    requires proc.RollingBack? && Stage(original, job, proc, s.target)
    ensures var (proc', effect) := MoveInApply(s, proc, choice); Stage(original, job, proc', Apply(s, effect).target)
  {
    if proc.left == 0 {
      RollbackEnds(original, s.target, job.request.payload.records);
    } else {
      RestoringExtends(original, s.target, job.request.payload.records, proc.left);
      RollbackStepRestores(s, job, proc.backup, proc.left - 1);
    }
  }

  lemma OwnStepAdvances(original: Tree, job: Job, s: State, p: nat, choice: Choice)
    requires InApply(ProcOf(s, p)) && Stage(original, job, ProcOf(s, p), s.target)
    ensures var s' := Next(s, Advance(p, choice)); Stage(original, job, ProcOf(s', p), s'.target)
  {
    var proc := ProcOf(s, p);
    if proc.BackingUp? {
      BackupStarts(original, job, s, proc, choice);
    } else if proc.Copying? {
      var records := job.request.payload.records;
      if proc.next == |records| {
        CopyEnds(original, job, s, proc, choice);
      } else if records[proc.next].path in s.candidate && !choice.copy.CopyRaises? {
        CopyRuns(original, job, s, proc, choice);
      } else {
        CopyStops(original, job, s, proc, choice);
      }
    } else if proc.Comparing? {
      CompareAdvances(original, job, s, proc, choice);
    } else {
      RollbackAdvances(original, job, s, proc, choice);
    }
  }

  /** The runners' process states and request locks are as they were. */
  ghost predicate SameRunners(s: State, s': State) {
    s'.procs == s.procs && s'.locks == s.locks
  }

  lemma IntentKeepsRunners(s: State, id: string)
    ensures SameRunners(s, IntentConsumed(s, id))
  {
  }

  lemma SubmissionKeepsRunners(s: State, id: string, requestId: string)
    ensures SameRunners(s, ApplySubmitted(s, id, requestId))
  {
  }

  lemma OpeningKeepsRunners(s: State, id: string, plan: Plan, intentAuth: string, terms: AuthTerms)
    ensures SameRunners(s, SessionOpened(s, id, plan, intentAuth, terms))
  {
  }

  lemma StagingKeepsRunners(s: State, id: string, baseline: Tree)
    ensures SameRunners(s, CandidateStaged(s, id, baseline))
  {
  }

  lemma PollingKeepsRunners(s: State, id: string)
    ensures SameRunners(s, ApplyPolled(s, id))
  {
  }

  lemma CandidateStepKeepsRunners(
    s: State, id: string, changes: seq<Change>, testsPass: bool, auth: string, terms: AuthTerms)
    ensures SameRunners(s, CandidateFinished(s, id, changes, testsPass, auth, terms))
  {
  }

  lemma DecidingKeepsRunners(s: State, id: string, action: Action, actor: string)
    ensures SameRunners(s, Decided(s, id, action, actor))
  {
  }

  lemma EffectsKeepProcs(s: State, effect: Effect)
    ensures Apply(s, effect).procs == s.procs
  {
  }

  predicate SessionStep(step: Step) {
    step.OpenSession? || step.ConsumeIntent? || step.StageCandidate? || step.FinishCandidate? || step.SubmitApply?
    || step.PollApply?
  }

  lemma SessionStepKeepsRunners(s: State, step: Step)
    requires SessionStep(step)
    ensures SameRunners(s, Next(s, step))
  {
    match step
    case OpenSession(id, plan, auth, terms) => OpeningKeepsRunners(s, id, plan, auth, terms);
    case ConsumeIntent(id) => IntentKeepsRunners(s, id);
    case StageCandidate(id, baseline) => StagingKeepsRunners(s, id, baseline);
    case FinishCandidate(id, changes, testsPass, auth, terms) =>
      CandidateStepKeepsRunners(s, id, changes, testsPass, auth, terms);
    case SubmitApply(id, requestId) => SubmissionKeepsRunners(s, id, requestId);
    case PollApply(id) => PollingKeepsRunners(s, id);
  }

  lemma EnvironmentKeepsRunners(s: State, step: Step)
    requires !SessionStep(step) && !step.Advance? && !step.StartRunner?
    ensures SameRunners(s, Next(s, step))
  {
    if step.OwnerDecides? {
      DecidingKeepsRunners(s, step.id, step.action, step.actor);
    }
  }

  /** Only a runner's start and its own steps touch process states and request locks. */
  lemma SharedStepKeepsRunners(s: State, step: Step)
    requires !step.Advance? && !step.StartRunner?
    ensures SameRunners(s, Next(s, step))
  {
    if SessionStep(step) {
      SessionStepKeepsRunners(s, step);
    } else {
      EnvironmentKeepsRunners(s, step);
    }
  }

  lemma AdvanceKeepsOthers(s: State, p: nat, q: nat, choice: Choice)
    requires p != q
    ensures ProcOf(Next(s, Advance(q, choice)), p) == ProcOf(s, p)
  {
    EffectsKeepProcs(s, Move(s, ProcOf(s, q), choice).1);
  }

  /** Nobody else moves a busy process, and an idle one only fetches a request. */
  lemma OtherStepKeepsProc(s: State, p: nat, step: Step)
    requires !(step.Advance? && step.p == p)
    ensures ProcOf(Next(s, step), p) == ProcOf(s, p) || (ProcOf(s, p).Idle? && ProcOf(Next(s, step), p).Fetched?)
  {
    match step
    case Advance(q, choice) => AdvanceKeepsOthers(s, p, q, choice);
    case StartRunner(_, _) =>
    case _ => SharedStepKeepsRunners(s, step);
  }

  lemma {:induction false} StageAfter(original: Tree, job: Job, s: State, p: nat, steps: seq<Step>)
    requires Stage(original, job, ProcOf(s, p), s.target) && Undisturbed(s, p, steps)
    ensures Stage(original, job, ProcOf(After(s, steps), p), After(s, steps).target)
    decreases |steps|
  {
    if steps != [] {
      var step := steps[0];
      if step.Advance? && step.p == p {
        OwnStepAdvances(original, job, s, p, step.choice);
      } else {
        OtherStepKeepsProc(s, p, step);
      }
      StageAfter(original, job, Next(s, step), p, steps[1..]);
    }
  }

  /** All or nothing: an apply phase during which nobody else touches the target ends with the
      target exactly as it was, or with every record's approved content (the last record's, where
      several name one path) and nothing else changed, and the published result says which. The
      candidate tree, the requests and the sessions may change at every step in between. */
  lemma UndisturbedApplyIsAtomic(s: State, p: nat, steps: seq<Step>)
    requires ProcOf(s, p).BackingUp? && Undisturbed(s, p, steps)
    requires ProcOf(After(s, steps), p).Publishing?
    ensures var records, target := ProcOf(s, p).job.request.payload.records, After(s, steps).target;
            if ProcOf(After(s, steps), p).result.NotApplied? then target == s.target
            else && (forall path :: !Named(records, path, 0) ==> SameAt(target, s.target, path))
                 && (forall i :: 0 <= i < |records| && IsLast(records, i) ==> HasApprovedContent(target, records[i]))
  {
    StageAfter(s.target, ProcOf(s, p).job, s, p, steps);
  }
}
