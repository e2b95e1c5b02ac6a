/** Who owns an apply: a consumed authorization leads to at most one call of apply_files, and every
    write, confirmation and successful result belongs to that one call. */
module UpgradeApplies {
  import opened Common
  import opened UpgradeTransaction
  import opened UpgradeProtocol
  import opened UpgradeSafety
  import UpgradeIsolation

  function AuthOf(job: Job): string {
    job.request.payload.candidateAuth
  }

  /** The job a process is applying, from the consumed marker to the end of copy or rollback. */
  function Applying(proc: Proc): Option<Job> {
    match proc
    case BackingUp(job, _) => Some(job)
    case Copying(job, _, _) => Some(job)
    case Comparing(job, _, _) => Some(job)
    case RollingBack(job, _, _) => Some(job)
    case _ => None
  }

  /** The job has called apply_files. */
  predicate Started(applies: seq<ApplyStart>, job: Job) {
    exists a :: a in applies && a.job == job
  }

  predicate NeverStarted(applies: seq<ApplyStart>, auth: string) {
    forall a :: a in applies ==> AuthOf(a.job) != auth
  }

  predicate ResultOwned(applies: seq<ApplyStart>, id: string, result: UpgradeResult) {
    result.Applied? ==> result.job.request.id == id && Started(applies, result.job)
  }

  /** What a process in its apply phase owns: its authorization is spent; before the call nobody has
      applied under it, afterwards the call on record is its own. */
  predicate ProcOwns(s: State, proc: Proc) {
    match proc
    case BackingUp(job, _) => AuthOf(job) in s.consumed && NeverStarted(s.applies, AuthOf(job))
    case Publishing(id, result) => ResultOwned(s.applies, id, result)
    case _ =>
      Applying(proc).Some? ==>
        AuthOf(Applying(proc).value) in s.consumed && Started(s.applies, Applying(proc).value)
  }

  predicate Disjoint(a: Proc, b: Proc) {
    Applying(a).Some? && Applying(b).Some? ==> AuthOf(Applying(a).value) != AuthOf(Applying(b).value)
  }

  predicate OneApplyEach(applies: seq<ApplyStart>) {
    forall i, j :: 0 <= i < j < |applies| ==> AuthOf(applies[i].job) != AuthOf(applies[j].job)
  }

  ghost predicate HistoryOwned(s: State) {
    && OneApplyEach(s.applies)
    && (forall a :: a in s.applies ==> AuthOf(a.job) in s.consumed)
    && (forall w :: w in s.writes ==> Started(s.applies, w.job))
    && (forall c :: c in s.confirmed ==> Started(s.applies, c.job))
    && (forall id :: id in s.results ==> ResultOwned(s.applies, id, s.results[id]))
  }

  ghost predicate Owned(s: State) {
    && HistoryOwned(s)
    && (forall p :: p in s.procs ==> ProcOwns(s, s.procs[p]))
    && (forall p, q :: p in s.procs && q in s.procs && p != q ==> Disjoint(s.procs[p], s.procs[q]))
  }

  // ---------------------------------------------------------------- one runner step

  /** The ways into, through and out of an apply phase: in by creating the marker, one call of
      apply_files, writes and confirmations for the own job only, out with the own result. */
  predicate Owning(s: State, before: Proc, after: Proc, effect: Effect) {
    match before
    case BackingUp(job, _) =>
      && effect.EnterApply? && effect.start.job == job
      && ((Applying(after) == Some(job) && !after.BackingUp?) || after == Publishing(job.request.id, NotApplied))
    case Publishing(id, result) =>
      && after.Unlocking?
      && (effect.NoEffect? || effect == CreateResult(id, result))
    case _ =>
      if Applying(before).Some? then
        var job := Applying(before).value;
        && (|| (Applying(after) == Some(job) && !after.BackingUp?)
            || (&& after.Publishing? && after.id == job.request.id
                && (after.result.NotApplied? || after.result == Applied(job))))
        && match effect
           case WriteTarget(write, _) => write.job == job
           case Confirm(confirmation) => confirmation.job == job
           case _ => effect.NoEffect?
      else
        match effect
        case Consume(auth, _) => after.BackingUp? && AuthOf(after.job) == auth && auth !in s.consumed
        case _ =>
          && (effect.NoEffect? || effect.CreateLock? || effect.RemoveLock?)
          && Applying(after).None? && (after.Publishing? ==> after.result.NotApplied?)
  }

  lemma EarlyMoveOwns(s: State, proc: Proc, choice: Choice)
    requires BeforeApply(proc)
    ensures var (after, effect) := MoveBeforeApply(s, proc, choice); Owning(s, proc, after, effect)
  {
  }

  lemma LateMoveOwns(s: State, proc: Proc, choice: Choice)
    requires !BeforeApply(proc)
    ensures var (after, effect) := MoveInApply(s, proc, choice); Owning(s, proc, after, effect)
  {
  }

  lemma MoveOwns(s: State, proc: Proc, choice: Choice)
    ensures var (after, effect) := Move(s, proc, choice); Owning(s, proc, after, effect)
  {
    if BeforeApply(proc) {
      EarlyMoveOwns(s, proc, choice);
    } else {
      LateMoveOwns(s, proc, choice);
    }
  }

  lemma StartedGrows(applies: seq<ApplyStart>, start: ApplyStart, job: Job)
    ensures Started(applies + [start], job) <==> Started(applies, job) || start.job == job
  {
    if Started(applies, job) {
      var a :| a in applies && a.job == job;
      assert a in applies + [start];
    }
    if start.job == job {
      assert start in applies + [start];
    }
  }

  /** The one call of apply_files. */
  lemma EnteringKeepsHistory(s: State, before: Proc, after: Proc, effect: Effect)
    requires before.BackingUp? && Owning(s, before, after, effect)
    requires HistoryOwned(s) && ProcOwns(s, before)
    ensures HistoryOwned(Apply(s, effect)) && ProcOwns(Apply(s, effect), after)
  {
    var s' := Apply(s, effect);
    forall job: Job
      ensures Started(s'.applies, job) <==> Started(s.applies, job) || effect.start.job == job
    {
      StartedGrows(s.applies, effect.start, job);
    }
    forall i | 0 <= i < |s.applies|
      ensures AuthOf(s.applies[i].job) != AuthOf(effect.start.job)
    {
      assert s.applies[i] in s.applies;
    }
  }

  lemma OtherMovesKeepHistory(s: State, before: Proc, after: Proc, effect: Effect)
    requires !before.BackingUp? && Owning(s, before, after, effect)
    requires HistoryOwned(s) && ProcOwns(s, before)
    ensures HistoryOwned(Apply(s, effect))
  {
  }

  lemma OtherMovesKeepOwn(s: State, before: Proc, after: Proc, effect: Effect)
    requires !before.BackingUp? && Owning(s, before, after, effect)
    requires HistoryOwned(s) && ProcOwns(s, before)
    ensures ProcOwns(Apply(s, effect), after)
  {
  }

  /** What another process owns survives the step: the mover works under another authorization. */
  lemma BystanderOwns(s: State, before: Proc, after: Proc, effect: Effect, other: Proc)
    requires Owning(s, before, after, effect) && ProcOwns(s, other) && Disjoint(before, other)
    ensures ProcOwns(Apply(s, effect), other) && Disjoint(after, other)
  {
    if effect.EnterApply? {
      forall job: Job
        ensures Started(s.applies + [effect.start], job) <==> Started(s.applies, job) || effect.start.job == job
      {
        StartedGrows(s.applies, effect.start, job);
      }
    }
  }

  lemma DisjointSymmetric(a: Proc, b: Proc)
    ensures Disjoint(a, b) <==> Disjoint(b, a)
  {
  }

  lemma MoverKeepsOwned(s: State, before: Proc, after: Proc, effect: Effect)
    requires HistoryOwned(s) && ProcOwns(s, before) && Owning(s, before, after, effect)
    ensures HistoryOwned(Apply(s, effect)) && ProcOwns(Apply(s, effect), after)
  {
    if before.BackingUp? {
      EnteringKeepsHistory(s, before, after, effect);
    } else {
      OtherMovesKeepHistory(s, before, after, effect);
      OtherMovesKeepOwn(s, before, after, effect);
    }
  }

  lemma OwnsIgnoresProcs(s: State, procs: map<nat, Proc>, proc: Proc)
    ensures ProcOwns(s.(procs := procs), proc) <==> ProcOwns(s, proc)
    ensures HistoryOwned(s.(procs := procs)) <==> HistoryOwned(s)
  {
  }

  /** One process replaced, the others as they were. */
  lemma ReplacingKeepsOwned(s: State, procs: map<nat, Proc>, p: nat, after: Proc)
    requires HistoryOwned(s) && ProcOwns(s, after)
    requires forall q :: q in procs && q != p ==> ProcOwns(s, procs[q]) && Disjoint(after, procs[q])
    requires forall q, r :: q in procs && r in procs && q != r ==> Disjoint(procs[q], procs[r])
    ensures Owned(s.(procs := procs[p := after]))
  {
    var s' := s.(procs := procs[p := after]);
    forall q | q in s'.procs
      ensures ProcOwns(s', s'.procs[q])
    {
      OwnsIgnoresProcs(s, s'.procs, s'.procs[q]);
    }
    OwnsIgnoresProcs(s, s'.procs, after);
    forall q, r | q in s'.procs && r in s'.procs && q != r
      ensures Disjoint(s'.procs[q], s'.procs[r])
    {
      DisjointSymmetric(s'.procs[q], s'.procs[r]);
    }
  }

  lemma OwningStepKeepsOwned(s: State, p: nat, after: Proc, effect: Effect)
    requires Owned(s) && Owning(s, ProcOf(s, p), after, effect)
    ensures Owned(Apply(s, effect).(procs := s.procs[p := after]))
  {
    MoverKeepsOwned(s, ProcOf(s, p), after, effect);
    forall q | q in s.procs && q != p
      ensures ProcOwns(Apply(s, effect), s.procs[q]) && Disjoint(after, s.procs[q])
    {
      BystanderOwns(s, ProcOf(s, p), after, effect, s.procs[q]);
    }
    ReplacingKeepsOwned(Apply(s, effect), s.procs, p, after);
  }

  // ---------------------------------------------------------------- every step

  /** Steps of anyone else only add markers and let idle processes fetch requests. */
  lemma OtherStepsKeepOwned(s: State, s': State)
    requires Owned(s)
    requires s'.applies == s.applies && s'.writes == s.writes && s'.confirmed == s.confirmed && s'.results == s.results
    requires forall id :: id in s.consumed ==> id in s'.consumed
    requires forall p :: p in s'.procs ==> (p in s.procs && s'.procs[p] == s.procs[p]) || s'.procs[p].Fetched?
    ensures Owned(s')
  {
    forall p | p in s'.procs
      ensures ProcOwns(s', s'.procs[p])
    {
      if !s'.procs[p].Fetched? {
        assert ProcOwns(s, s.procs[p]);
      }
    }
  }

  /** Steps of anyone else leave a process as it was or let an idle one fetch a request. */
  lemma OtherStepShape(s: State, step: Step, p: nat)
    requires !step.Advance? && p in Next(s, step).procs
    ensures (p in s.procs && Next(s, step).procs[p] == s.procs[p]) || Next(s, step).procs[p].Fetched?
  {
    if !step.StartRunner? {
      UpgradeIsolation.SharedStepKeepsRunners(s, step);
    }
  }

  lemma StepKeepsOwned(s: State, step: Step)
    requires Safe(s) && Owned(s)
    ensures Owned(Next(s, step))
  {
    if step.Advance? {
      var (after, effect) := Move(s, ProcOf(s, step.p), step.choice);
      MoveOwns(s, ProcOf(s, step.p), step.choice);
      OwningStepKeepsOwned(s, step.p, after, effect);
    } else {
      QuietStepKeepsOwned(s, step);
    }
  }

  lemma QuietStepKeepsOwned(s: State, step: Step)
    requires Safe(s) && Owned(s) && !step.Advance?
    ensures Owned(Next(s, step))
  {
    OtherStepsAreQuiet(s, step);
    forall p | p in Next(s, step).procs
      ensures (p in s.procs && Next(s, step).procs[p] == s.procs[p]) || Next(s, step).procs[p].Fetched?
    {
      OtherStepShape(s, step, p);
    }
    OtherStepsKeepOwned(s, Next(s, step));
  }

  lemma {:induction false} EveryRunIsOwned(clock: int, target: Tree, steps: seq<Step>)
    ensures Owned(Run(clock, target, steps))
  {
    if steps != [] {
      EveryRunIsOwned(clock, target, steps[..|steps| - 1]);
      EveryRunIsSafe(clock, target, steps[..|steps| - 1]);
      StepKeepsOwned(Run(clock, target, steps[..|steps| - 1]), steps[|steps| - 1]);
    }
  }

  lemma ReachableIsOwned(s: State)
    requires Reachable(s)
    ensures Owned(s)
  {
    var clock, target, steps :| Run(clock, target, steps) == s;
    EveryRunIsOwned(clock, target, steps);
  }

  // ---------------------------------------------------------------- what that means

  /** Each candidate authorization leads to at most one call of apply_files, and to at most one
      runner between marker and end of apply, over all requests and forged request files. */
  lemma OneApplyPerAuthorization(s: State)
    requires Reachable(s)
    ensures forall i, j :: 0 <= i < j < |s.applies| ==> AuthOf(s.applies[i].job) != AuthOf(s.applies[j].job)
    ensures forall p, q :: p in s.procs && q in s.procs && p != q
                           && Applying(s.procs[p]).Some? && Applying(s.procs[q]).Some?
                           ==> AuthOf(Applying(s.procs[p]).value) != AuthOf(Applying(s.procs[q]).value)
  {
    ReachableIsOwned(s);
    forall p, q | p in s.procs && q in s.procs && p != q && Applying(s.procs[p]).Some? && Applying(s.procs[q]).Some?
      ensures AuthOf(Applying(s.procs[p]).value) != AuthOf(Applying(s.procs[q]).value)
    {
      assert Disjoint(s.procs[p], s.procs[q]);
    }
  }

  /** The apply a piece of work belongs to: a recorded call for the same job, the only one under
      its authorization. */
  predicate BelongsTo(s: State, job: Job, a: ApplyStart) {
    a in s.applies && a.job == job && forall b :: b in s.applies && AuthOf(b.job) == AuthOf(job) ==> b == a
  }

  lemma StartedBelongs(s: State, job: Job) returns (a: ApplyStart)
    requires OneApplyEach(s.applies) && Started(s.applies, job)
    ensures BelongsTo(s, job, a)
  {
    a :| a in s.applies && a.job == job;
    var i :| 0 <= i < |s.applies| && s.applies[i] == a;
    forall b | b in s.applies && AuthOf(b.job) == AuthOf(job)
      ensures b == a
    {
      var j :| 0 <= j < |s.applies| && s.applies[j] == b;
      assert i == j;
    }
  }

  /** What an apply was started on: the approved tree, each record's approved content in it, each
      target file still at its baseline, all records in scope, and passing tests. */
  predicate VerifiedStart(s: State, a: ApplyStart) {
    var payload := a.job.request.payload;
    && payload.binding.Some? && payload.binding.value.CandidateFor?
    && ApprovedAndSpent(s, payload.candidateAuth, payload.binding.value)
    && payload.binding.value.tree.content == a.evidence.tree
    && a.evidence.tested && |a.evidence.sights| == |payload.binding.value.records|
    && forall i :: 0 <= i < |a.evidence.sights| ==>
         SightGood(a.job.session.plan, payload.binding.value.records[i], a.evidence.sights[i])
  }

  lemma StartIsVerified(s: State, a: ApplyStart)
    requires Reachable(s) && a in s.applies
    ensures VerifiedStart(s, a)
  {
    ReachableIsSafe(s);
    assert StartGood(s, a);
    assert Backed(s, a.job.request.payload.candidateAuth);
  }

  /** Every call of apply_files, every target write and every passed hash check belongs to the one
      apply of its authorization, and that apply started from a complete verification. */
  lemma AppliesFollowVerification(s: State)
    requires Reachable(s)
    ensures forall a :: a in s.applies ==> VerifiedStart(s, a)
    ensures forall w :: w in s.writes ==> exists a :: BelongsTo(s, w.job, a) && VerifiedStart(s, a)
    ensures forall c :: c in s.confirmed ==> exists a :: BelongsTo(s, c.job, a) && VerifiedStart(s, a)
  {
    ReachableIsOwned(s);
    forall a | a in s.applies
      ensures VerifiedStart(s, a)
    {
      StartIsVerified(s, a);
    }
    forall w | w in s.writes
      ensures exists a :: BelongsTo(s, w.job, a) && VerifiedStart(s, a)
    {
      var a := StartedBelongs(s, w.job);
    }
    forall c | c in s.confirmed
      ensures exists a :: BelongsTo(s, c.job, a) && VerifiedStart(s, a)
    {
      var a := StartedBelongs(s, c.job);
    }
  }

  /** A request reported as applied was applied by the one recorded apply of its authorization,
      for that very request, and each of its records was confirmed in the target by that apply. */
  lemma AppliedMeansConfirmed(s: State, id: string)
    requires Reachable(s) && id in s.results && s.results[id].Applied?
    ensures var job := s.results[id].job;
            && job.request.id == id
            && (exists a :: BelongsTo(s, job, a) && VerifiedStart(s, a))
            && forall i :: 0 <= i < |job.request.payload.records| ==> ConfirmedAt(s.confirmed, job, i)
  {
    ReachableIsOwned(s);
    ReachableIsSafe(s);
    assert ResultGood(s, s.results[id]) && ResultOwned(s.applies, id, s.results[id]);
    var a := StartedBelongs(s, s.results[id].job);
    StartIsVerified(s, a);
  }
}
