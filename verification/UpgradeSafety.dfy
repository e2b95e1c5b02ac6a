/** What every interleaving of the upgrade protocol keeps. */
module UpgradeSafety {
  import opened Common
  import opened OwnerApproval
  import opened UpgradeTransaction
  import opened UpgradeCandidate
  import opened UpgradeProtocol

  // ---------------------------------------------------------------- facts that stay true once true

  /** A consumed marker stands for an approving decision on exactly the content it names. */
  predicate Backed(s: State, id: string) {
    id in s.consumed ==> ApprovedFor(s, id, s.consumed[id])
  }

  predicate ApprovedFor(s: State, id: string, binding: Fingerprint<Binding>) {
    id in s.decisions && s.decisions[id].verdict.Approved? && s.decisions[id].fingerprint == binding
  }

  predicate Used(s: State, id: string, binding: Binding) {
    id in s.consumed && s.consumed[id] == Fingerprint(binding)
  }

  predicate BindingGood(session: Session)
    requires session.binding.Some?
  {
    var b := session.binding.value;
    && b.CandidateFor? && b.sessionId == session.id && b.intentAuth == session.intentAuth
    && b.goal == session.plan.goal && b.scopes == session.plan.scopes && b.allowed == session.plan.allowed
    && b.records == session.records && Describes(b.records, b.tree.content)
  }

  predicate SessionGood(s: State, session: Session) {
    && (session.intentConsumed ==> Used(s, session.intentAuth, IntentFor(session.plan)))
    && (session.status.Generating? ==> session.intentConsumed)
    && (session.binding.Some? ==> session.intentConsumed && BindingGood(session))
  }

  predicate JobGood(s: State, job: Job) {
    SessionGood(s, job.session) && Matches(job.request.payload, job.session)
  }

  /** Both authorizations of a job have been consumed, each for exactly what the owner approved. */
  predicate Authorized(s: State, job: Job) {
    JobGood(s, job) && Used(s, job.request.payload.candidateAuth, job.session.binding.value) && InScope(job)
  }

  predicate InScope(job: Job) {
    var records := job.request.payload.records;
    forall i :: 0 <= i < |records| ==> records[i].path in job.session.plan.allowed
  }

  predicate SightGood(plan: Plan, record: Record, sight: Sight) {
    && record.path in plan.allowed
    && Fingerprint(sight.candidate) == record.after
    && record.before == (if sight.target.Some? then Some(Fingerprint(sight.target.value)) else None)
  }

  predicate EvidenceGood(job: Job, evidence: Evidence) {
    var records := job.request.payload.records;
    && job.session.binding.Some? && job.session.binding.value.CandidateFor?
    && job.session.binding.value.tree == Fingerprint(evidence.tree)
    && |evidence.sights| <= |records|
    && forall i :: 0 <= i < |evidence.sights| ==> SightGood(job.session.plan, records[i], evidence.sights[i])
  }

  predicate EvidenceComplete(job: Job, evidence: Evidence) {
    EvidenceGood(job, evidence) && |evidence.sights| == |job.request.payload.records|
  }

  /** Complete evidence whose tests passed on the second run as well. */
  predicate EvidenceTested(job: Job, evidence: Evidence) {
    EvidenceComplete(job, evidence) && evidence.tested
  }

  predicate ConfirmedAt(confirmed: seq<Confirmation>, job: Job, i: nat) {
    exists c :: c in confirmed && c.job == job && c.index == i
  }

  predicate ConfirmedUpTo(s: State, job: Job, n: nat) {
    forall i :: 0 <= i < n ==> ConfirmedAt(s.confirmed, job, i)
  }

  predicate BackupFits(backup: Backup, records: seq<Record>) {
    |backup.manifest| == |records| && forall i :: 0 <= i < |records| ==> backup.manifest[i].path == records[i].path
  }

  predicate ResultGood(s: State, result: UpgradeResult) {
    result.Applied? ==> ConfirmedUpTo(s, result.job, |result.job.request.payload.records|)
  }

  predicate WriteGood(s: State, w: TargetWrite) {
    Authorized(s, w.job) && w.index < |w.job.request.payload.records|
    && w.job.request.payload.records[w.index].path == w.path
  }

  predicate ConfirmationGood(s: State, c: Confirmation) {
    Authorized(s, c.job) && c.index < |c.job.request.payload.records|
    && Fingerprint(c.content) == c.job.request.payload.records[c.index].after
  }

  predicate StartGood(s: State, a: ApplyStart) {
    Authorized(s, a.job) && EvidenceTested(a.job, a.evidence)
  }

  predicate ProcGood(s: State, proc: Proc) {
    match proc
    case Checking(job) => JobGood(s, job)
    case VerifyingTree(job) => JobGood(s, job)
    case VerifyingFiles(job, evidence) => JobGood(s, job) && EvidenceGood(job, evidence)
    case Testing(job, evidence) => JobGood(s, job) && EvidenceComplete(job, evidence)
    case Rechecking(job, evidence) => JobGood(s, job) && EvidenceTested(job, evidence)
    case Marking(job, evidence) =>
      JobGood(s, job) && EvidenceTested(job, evidence)
      && ApprovedFor(s, job.request.payload.candidateAuth, Fingerprint(job.session.binding.value))
    case BackingUp(job, evidence) => Authorized(s, job) && EvidenceTested(job, evidence)
    case Copying(job, backup, i) =>
      Authorized(s, job) && BackupFits(backup, job.request.payload.records)
      && i <= |job.request.payload.records| && ConfirmedUpTo(s, job, i)
    case Comparing(job, backup, i) =>
      Authorized(s, job) && BackupFits(backup, job.request.payload.records)
      && i < |job.request.payload.records| && ConfirmedUpTo(s, job, i)
    case RollingBack(job, backup, left) =>
      Authorized(s, job) && BackupFits(backup, job.request.payload.records) && left <= |backup.manifest|
    case Publishing(_, result) => ResultGood(s, result)
    case _ => true
  }

  ghost predicate HistoryGood(s: State) {
    && (forall a :: a in s.applies ==> StartGood(s, a))
    && (forall w :: w in s.writes ==> WriteGood(s, w))
    && (forall c :: c in s.confirmed ==> ConfirmationGood(s, c))
    && (forall id :: id in s.results ==> ResultGood(s, s.results[id]))
  }

  ghost predicate Safe(s: State) {
    && (forall id :: id in s.consumed ==> Backed(s, id))
    && (forall id :: id in s.sessions ==> SessionGood(s, s.sessions[id]))
    && (forall p :: p in s.procs ==> ProcGood(s, s.procs[p]))
    && HistoryGood(s)
  }

  // ---------------------------------------------------------------- growth

  /** What every step does to markers, decisions and confirmations: nothing is taken back. */
  ghost predicate Grows(s: State, s': State) {
    && (forall id :: id in s.consumed ==> id in s'.consumed && s'.consumed[id] == s.consumed[id])
    && (forall c :: c in s.confirmed ==> c in s'.confirmed)
    && (forall id, b :: ApprovedFor(s, id, b) ==> ApprovedFor(s', id, b))
  }

  lemma ConfirmedGrows(s: State, s': State, job: Job, n: nat)
    requires Grows(s, s') && ConfirmedUpTo(s, job, n)
    ensures ConfirmedUpTo(s', job, n)
  {
    forall i | 0 <= i < n
      ensures ConfirmedAt(s'.confirmed, job, i)
    {
      assert ConfirmedAt(s.confirmed, job, i);
    }
  }

  lemma ProcGrows(s: State, s': State, proc: Proc)
    requires Grows(s, s') && ProcGood(s, proc)
    ensures ProcGood(s', proc)
  {
    match proc
    case Copying(job, _, i) => ConfirmedGrows(s, s', job, i);
    case Comparing(job, _, i) => ConfirmedGrows(s, s', job, i);
    case Publishing(_, result) =>
      if result.Applied? {
        ConfirmedGrows(s, s', result.job, |result.job.request.payload.records|);
      }
    case _ =>
  }

  lemma ResultGrows(s: State, s': State, result: UpgradeResult)
    requires Grows(s, s') && ResultGood(s, result)
    ensures ResultGood(s', result)
  {
    if result.Applied? {
      ConfirmedGrows(s, s', result.job, |result.job.request.payload.records|);
    }
  }

  lemma HistoryGrows(s: State, s': State)
    requires Grows(s, s') && HistoryGood(s)
    requires forall a :: a in s'.applies ==> a in s.applies || StartGood(s', a)
    requires forall w :: w in s'.writes ==> w in s.writes || WriteGood(s', w)
    requires forall c :: c in s'.confirmed ==> c in s.confirmed || ConfirmationGood(s', c)
    requires forall id :: id in s'.results ==>
               (id in s.results && s'.results[id] == s.results[id]) || ResultGood(s', s'.results[id])
    ensures HistoryGood(s')
  {
    forall id | id in s'.results
      ensures ResultGood(s', s'.results[id])
    {
      if id in s.results && s'.results[id] == s.results[id] {
        ResultGrows(s, s', s.results[id]);
      }
    }
    forall a | a in s'.applies
      ensures StartGood(s', a)
    {
      assert a in s.applies ==> StartGood(s, a);
    }
    forall w | w in s'.writes
      ensures WriteGood(s', w)
    {
      assert w in s.writes ==> WriteGood(s, w);
    }
    forall c | c in s'.confirmed
      ensures ConfirmationGood(s', c)
    {
      assert c in s.confirmed ==> ConfirmationGood(s, c);
    }
  }

  // ---------------------------------------------------------------- runner steps

  /** What a runner step must know before its effect may happen. */
  predicate EffectGood(s: State, effect: Effect) {
    match effect
    case Consume(auth, marker) => auth !in s.consumed && ApprovedFor(s, auth, marker)
    case EnterApply(start, _) => StartGood(s, start)
    case WriteTarget(write, _) => WriteGood(s, write)
    case Confirm(c) => ConfirmationGood(s, c)
    case CreateResult(id, result) => id !in s.results && ResultGood(s, result)
    case _ => true
  }

  lemma EarlyMoveIsGood(s: State, proc: Proc, choice: Choice)
    requires BeforeApply(proc) && !proc.VerifyingFiles? && !proc.Marking?
    requires (forall id :: id in s.sessions ==> SessionGood(s, s.sessions[id])) && ProcGood(s, proc)
    ensures var (proc', effect) := Move(s, proc, choice); EffectGood(s, effect) && ProcGood(s, proc')
  {
  }

  lemma LookingExtendsEvidence(s: State, job: Job, evidence: Evidence)
    requires EvidenceGood(job, evidence) && |evidence.sights| < |job.request.payload.records|
    requires FileVerifies(s, job.session.plan, job.request.payload.records[|evidence.sights|])
    ensures var path := job.request.payload.records[|evidence.sights|].path;
            path in s.candidate && EvidenceGood(job, evidence.(sights := evidence.sights + [Look(s, path)]))
  {
    var records, i := job.request.payload.records, |evidence.sights|;
    assert SightGood(job.session.plan, records[i], Look(s, records[i].path));
  }

  lemma FileCheckIsGood(s: State, proc: Proc, choice: Choice)
    requires proc.VerifyingFiles? && ProcGood(s, proc)
    ensures var (proc', effect) := Move(s, proc, choice); EffectGood(s, effect) && ProcGood(s, proc')
  {
    var records, i := proc.job.request.payload.records, |proc.evidence.sights|;
    if i < |records| && FileVerifies(s, proc.job.session.plan, records[i]) {
      LookingExtendsEvidence(s, proc.job, proc.evidence);
    }
  }

  /** A complete verification puts every record inside the scope the owner approved. */
  lemma CompleteEvidenceIsInScope(job: Job, evidence: Evidence)
    requires EvidenceComplete(job, evidence)
    ensures InScope(job)
  {
    var records := job.request.payload.records;
    forall i | 0 <= i < |records|
      ensures records[i].path in job.session.plan.allowed
    {
      assert SightGood(job.session.plan, records[i], evidence.sights[i]);
    }
  }

  /** When every file check saw the verified tree, no two records demand different contents of one
      path: conflicting records never get past a verification nobody interferes with. */
  lemma VerifiedTogetherAreConsistent(job: Job, evidence: Evidence)
    requires EvidenceComplete(job, evidence)
    requires forall i :: 0 <= i < |evidence.sights| ==>
               var path := job.request.payload.records[i].path;
               path in evidence.tree && evidence.sights[i].candidate == evidence.tree[path]
    ensures Consistent(job.request.payload.records)
  {
    var records := job.request.payload.records;
    forall i, j | 0 <= i < j < |records| && records[i].path == records[j].path
      ensures records[i].after == records[j].after
    {
      assert SightGood(job.session.plan, records[i], evidence.sights[i]);
      assert SightGood(job.session.plan, records[j], evidence.sights[j]);
    }
  }

  lemma ConsumingAuthorizes(s: State, s': State, job: Job)
    requires Grows(s, s') && JobGood(s, job) && InScope(job)
    requires Used(s', job.request.payload.candidateAuth, job.session.binding.value)
    ensures Authorized(s', job)
  {
  }

  lemma MarkingIsGood(s: State, proc: Proc, choice: Choice)
    requires proc.Marking? && ProcGood(s, proc)
    ensures var (proc', effect) := Move(s, proc, choice); EffectGood(s, effect) && ProcGood(Apply(s, effect), proc')
  {
    var job := proc.job;
    var auth := job.request.payload.candidateAuth;
    if auth !in s.consumed {
      var effect := Consume(auth, Fingerprint(job.session.binding.value));
      assert MoveBeforeApply(s, proc, choice) == (BackingUp(job, proc.evidence), effect);
      assert EffectGood(s, effect);
      EffectGrows(s, effect);
      CompleteEvidenceIsInScope(job, proc.evidence);
      ConsumingAuthorizes(s, Apply(s, effect), job);
    }
  }

  lemma BackingUpIsGood(s: State, proc: Proc, choice: Choice)
    requires proc.BackingUp? && ProcGood(s, proc)
    ensures var (proc', effect) := Move(s, proc, choice); EffectGood(s, effect) && ProcGood(s, proc')
  {
    BackupMeaning(s.target, proc.job.request.payload.records);
  }

  lemma ComparingIsGood(s: State, proc: Proc, choice: Choice)
    requires proc.Comparing? && ProcGood(s, proc)
    ensures var (proc', effect) := Move(s, proc, choice); EffectGood(s, effect) && ProcGood(Apply(s, effect), proc')
  {
    var (proc', effect) := Move(s, proc, choice);
    if effect.Confirm? {
      var s' := Apply(s, effect);
      forall i | 0 <= i < proc.next + 1
        ensures ConfirmedAt(s'.confirmed, proc.job, i)
      {
        if i < proc.next {
          assert ConfirmedAt(s.confirmed, proc.job, i);
        } else {
          assert effect.confirmation in s'.confirmed;
        }
      }
    }
  }

  lemma CopyingIsGood(s: State, proc: Proc, choice: Choice)
    requires proc.Copying? && ProcGood(s, proc)
    ensures var (proc', effect) := MoveInApply(s, proc, choice); EffectGood(s, effect) && ProcGood(s, proc')
  {
  }

  lemma RollingBackIsGood(s: State, proc: Proc, choice: Choice)
    requires proc.RollingBack? && ProcGood(s, proc)
    ensures var (proc', effect) := MoveInApply(s, proc, choice); EffectGood(s, effect) && ProcGood(s, proc')
  {
  }

  lemma EndingIsGood(s: State, proc: Proc, choice: Choice)
    requires proc.Publishing? || proc.Unlocking? || proc.Idle?
    requires ProcGood(s, proc)
    ensures var (proc', effect) := MoveInApply(s, proc, choice); EffectGood(s, effect) && ProcGood(s, proc')
  {
  }

  lemma EffectGrows(s: State, effect: Effect)
    requires EffectGood(s, effect)
    ensures Grows(s, Apply(s, effect))
  {
  }

  /** The moves that neither mark an authorization nor confirm a record. */
  lemma PlainMoveIsGood(s: State, proc: Proc, choice: Choice)
    requires (forall id :: id in s.sessions ==> SessionGood(s, s.sessions[id])) && ProcGood(s, proc)
    requires !proc.Marking? && !proc.Comparing?
    ensures var (proc', effect) := Move(s, proc, choice); EffectGood(s, effect) && ProcGood(s, proc')
  {
    if proc.VerifyingFiles? {
      FileCheckIsGood(s, proc, choice);
    } else if proc.BackingUp? {
      BackingUpIsGood(s, proc, choice);
    } else if BeforeApply(proc) {
      EarlyMoveIsGood(s, proc, choice);
    } else if proc.Copying? {
      CopyingIsGood(s, proc, choice);
    } else if proc.RollingBack? {
      RollingBackIsGood(s, proc, choice);
    } else {
      EndingIsGood(s, proc, choice);
    }
  }

  lemma MoveIsGood(s: State, proc: Proc, choice: Choice)
    requires (forall id :: id in s.sessions ==> SessionGood(s, s.sessions[id])) && ProcGood(s, proc)
    ensures var (proc', effect) := Move(s, proc, choice); EffectGood(s, effect) && ProcGood(Apply(s, effect), proc')
  {
    if proc.Marking? {
      MarkingIsGood(s, proc, choice);
    } else if proc.Comparing? {
      ComparingIsGood(s, proc, choice);
    } else {
      var (proc', effect) := Move(s, proc, choice);
      PlainMoveIsGood(s, proc, choice);
      EffectGrows(s, effect);
      ProcGrows(s, Apply(s, effect), proc');
    }
  }

  lemma EffectKeepsHistory(s: State, effect: Effect)
    requires HistoryGood(s) && EffectGood(s, effect)
    ensures HistoryGood(Apply(s, effect))
  {
    EffectGrows(s, effect);
    HistoryGrows(s, Apply(s, effect));
  }

  // ---------------------------------------------------------------- every step

  lemma SessionGrows(s: State, s': State, session: Session)
    requires Grows(s, s') && SessionGood(s, session)
    ensures SessionGood(s', session)
  {
  }

  /** The shape of a step that leaves the histories alone: new markers, sessions and process
      states are good, everything else is as it was. */
  ghost predicate QuietStep(s: State, s': State) {
    && Grows(s, s')
    && s'.applies == s.applies && s'.writes == s.writes && s'.confirmed == s.confirmed && s'.results == s.results
    && (forall id :: id in s'.consumed ==> id in s.consumed || Backed(s', id))
    && (forall id :: id in s'.sessions ==>
          (id in s.sessions && s'.sessions[id] == s.sessions[id]) || SessionGood(s', s'.sessions[id]))
    && (forall p :: p in s'.procs ==> (p in s.procs && s'.procs[p] == s.procs[p]) || ProcGood(s', s'.procs[p]))
  }

  lemma QuietStepKeepsSafe(s: State, s': State)
    requires Safe(s) && QuietStep(s, s')
    ensures Safe(s')
  {
    HistoryGrows(s, s');
    forall p | p in s'.procs
      ensures ProcGood(s', s'.procs[p])
    {
      if p in s.procs && s'.procs[p] == s.procs[p] {
        ProcGrows(s, s', s.procs[p]);
      }
    }
    forall id | id in s'.sessions
      ensures SessionGood(s', s'.sessions[id])
    {
      if id in s.sessions && s'.sessions[id] == s.sessions[id] {
        SessionGrows(s, s', s.sessions[id]);
      }
    }
    forall id | id in s'.consumed
      ensures Backed(s', id)
    {
      if id in s.consumed {
        assert Backed(s, id);
      }
    }
  }

  /** An approving decision is never replaced. */
  lemma DecidingIsQuiet(s: State, id: string, action: Action, actor: string)
    ensures QuietStep(s, Decided(s, id, action, actor))
  {
  }

  lemma OpeningIsQuiet(s: State, id: string, plan: Plan, intentAuth: string, terms: AuthTerms)
    ensures QuietStep(s, SessionOpened(s, id, plan, intentAuth, terms))
  {
  }

  lemma ApprovedAuthIsBacked(s: State, id: string, expected: Binding)
    requires AuthState(s, id, expected).AuthApproved?
    ensures id !in s.consumed && ApprovedFor(s, id, Fingerprint(expected))
  {
  }

  /** A session whose status alone changes, to anything but generating, stays good. */
  lemma StatusChangeIsQuiet(s: State, id: string, status: SessionStatus)
    requires id in s.sessions && SessionGood(s, s.sessions[id]) && !status.Generating?
    ensures QuietStep(s, s.(sessions := s.sessions[id := s.sessions[id].(status := status)]))
  {
  }

  lemma CheckedSessionIsGood(s: State, s': State, session: Session)
    requires SessionGood(s, session) && Grows(s, s')
    requires var state := AuthState(s, session.intentAuth, IntentFor(session.plan));
             state.AuthApproved? ==> Used(s', session.intentAuth, IntentFor(session.plan))
    ensures SessionGood(s', AfterIntentCheck(session, AuthState(s, session.intentAuth, IntentFor(session.plan))))
  {
  }

  lemma ConsumingIntentIsQuiet(s: State, id: string)
    requires id in s.sessions ==> SessionGood(s, s.sessions[id])
    ensures QuietStep(s, IntentConsumed(s, id))
  {
    if id in s.sessions && s.sessions[id].status.AwaitingIntent? {
      var session, s' := s.sessions[id], IntentConsumed(s, id);
      if AuthState(s, session.intentAuth, IntentFor(session.plan)).AuthApproved? {
        ApprovedAuthIsBacked(s, session.intentAuth, IntentFor(session.plan));
      }
      CheckedSessionIsGood(s, s', session);
    }
  }

  lemma ReplacingSessionIsQuiet(
    s: State, auths: map<string, AuthFile>, requests: map<string, UpgradeRequest>, candidate: Tree, id: string,
    session: Session)
    requires SessionGood(s, session)
    ensures QuietStep(s, s.(auths := auths, requests := requests, candidate := candidate,
                            sessions := s.sessions[id := session]))
  {
  }

  lemma StagingIsQuiet(s: State, id: string, baseline: Tree)
    requires id in s.sessions ==> SessionGood(s, s.sessions[id])
    ensures QuietStep(s, CandidateStaged(s, id, baseline))
  {
  }

  lemma FinishedSessionIsGood(s: State, session: Session, repo: Tree, changes: seq<Change>, candidateAuth: string)
    requires SessionGood(s, session) && session.status.Generating? && session.baseline.Some?
    requires Stageable(session.plan, session.baseline.value, changes)
    ensures var records := RecordsOf(session.baseline.value, changes);
            var binding := CandidateBinding(session, records, Overlay(repo, changes));
            SessionGood(s, session.(status := AwaitingCandidate, binding := Some(binding),
                                    candidateAuth := candidateAuth, records := records))
  {
    RecordsDescribeOverlay(session.baseline.value, repo, changes);
  }

  lemma FinishingWellIsQuiet(
    s: State, id: string, tree: Tree, changes: seq<Change>, candidateAuth: string, terms: AuthTerms)
    requires id in s.sessions && SessionGood(s, s.sessions[id])
    requires s.sessions[id].status.Generating? && s.sessions[id].baseline.Some?
    requires Stageable(s.sessions[id].plan, s.sessions[id].baseline.value, changes)
    requires tree == Overlay(s.candidate, changes)
    ensures var session := s.sessions[id];
            var records := RecordsOf(session.baseline.value, changes);
            var binding := CandidateBinding(session, records, tree);
            QuietStep(s, s.(candidate := tree,
                            auths := s.auths[candidateAuth := NewAuth(candidateAuth, binding, terms)],
                            sessions := s.sessions[id := session.(status := AwaitingCandidate, binding := Some(binding),
                                                                  candidateAuth := candidateAuth, records := records)]))
  {
    var session := s.sessions[id];
    FinishedSessionIsGood(s, session, s.candidate, changes, candidateAuth);
    var records := RecordsOf(session.baseline.value, changes);
    var binding := CandidateBinding(session, records, tree);
    ReplacingSessionIsQuiet(
      s, s.auths[candidateAuth := NewAuth(candidateAuth, binding, terms)], s.requests, tree, id,
      session.(status := AwaitingCandidate, binding := Some(binding), candidateAuth := candidateAuth,
               records := records));
  }

  lemma FinishingIsQuiet(
    s: State, id: string, changes: seq<Change>, testsPass: bool, candidateAuth: string, terms: AuthTerms)
    requires id in s.sessions ==> SessionGood(s, s.sessions[id])
    ensures QuietStep(s, CandidateFinished(s, id, changes, testsPass, candidateAuth, terms))
  {
    if id in s.sessions && s.sessions[id].status.Generating? && s.sessions[id].baseline.Some? {
      var session := s.sessions[id];
      if Stageable(session.plan, session.baseline.value, changes) {
        var tree := Overlay(s.candidate, changes);
        if testsPass && terms.created && Unused(s, candidateAuth) {
          FinishingWellIsQuiet(s, id, tree, changes, candidateAuth, terms);
        } else {
          ReplacingSessionIsQuiet(s, s.auths, s.requests, tree, id, session.(status := Failed));
        }
      } else {
        StatusChangeIsQuiet(s, id, Failed);
      }
    }
  }

  lemma SubmittedSessionIsGood(s: State, session: Session, state: AuthStatus, requestId: string, taken: bool)
    requires SessionGood(s, session)
    ensures SessionGood(s, AfterSubmission(session, state, requestId, taken))
  {
  }

  lemma SubmittingIsQuiet(s: State, id: string, requestId: string)
    requires id in s.sessions ==> SessionGood(s, s.sessions[id])
    ensures QuietStep(s, ApplySubmitted(s, id, requestId))
  {
    if id in s.sessions && s.sessions[id].binding.Some? && s.sessions[id].binding.value.CandidateFor? {
      var session := s.sessions[id];
      var state := AuthState(s, session.candidateAuth, session.binding.value);
      var session' := AfterSubmission(session, state, requestId, requestId in s.requests);
      SubmittedSessionIsGood(s, session, state, requestId, requestId in s.requests);
      ReplacingSessionIsQuiet(s, s.auths, ApplySubmitted(s, id, requestId).requests, s.candidate, id, session');
    }
  }

  lemma EffectKeepsSafe(s: State, effect: Effect)
    requires Safe(s) && EffectGood(s, effect)
    ensures Safe(Apply(s, effect))
  {
    var s' := Apply(s, effect);
    EffectKeepsHistory(s, effect);
    EffectGrows(s, effect);
    forall p | p in s'.procs
      ensures ProcGood(s', s'.procs[p])
    {
      ProcGrows(s, s', s.procs[p]);
    }
    forall id | id in s'.sessions
      ensures SessionGood(s', s'.sessions[id])
    {
      SessionGrows(s, s', s.sessions[id]);
    }
    forall id | id in s'.consumed
      ensures Backed(s', id)
    {
      assert id in s.consumed ==> Backed(s, id);
    }
  }

  lemma SettingProcIsQuiet(s: State, p: nat, proc: Proc)
    requires ProcGood(s, proc)
    ensures QuietStep(s, s.(procs := s.procs[p := proc]))
  {
    assert ProcGood(s.(procs := s.procs[p := proc]), proc) by {
      ProcGrows(s, s.(procs := s.procs[p := proc]), proc);
    }
  }

  lemma EffectThenProcKeepsSafe(s: State, p: nat, effect: Effect, proc: Proc)
    requires Safe(s) && EffectGood(s, effect) && ProcGood(Apply(s, effect), proc)
    ensures Safe(Apply(s, effect).(procs := s.procs[p := proc]))
  {
    EffectKeepsSafe(s, effect);
    var mid := Apply(s, effect);
    SettingProcIsQuiet(mid, p, proc);
    QuietStepKeepsSafe(mid, mid.(procs := mid.procs[p := proc]));
    assert mid.procs == s.procs;
  }

  lemma AdvanceKeepsSafe(s: State, p: nat, choice: Choice)
    requires Safe(s)
    ensures Safe(Next(s, Advance(p, choice)))
  {
    var (proc, effect) := Move(s, ProcOf(s, p), choice);
    MoveIsGood(s, ProcOf(s, p), choice);
    EffectThenProcKeepsSafe(s, p, effect, proc);
  }

  lemma PollingIsQuiet(s: State, id: string)
    requires id in s.sessions ==> SessionGood(s, s.sessions[id])
    ensures QuietStep(s, ApplyPolled(s, id))
  {
    if id in s.sessions {
      StatusChangeIsQuiet(s, id, Succeeded);
      StatusChangeIsQuiet(s, id, Failed);
    }
  }

  lemma EnvironmentIsQuiet(s: State, step: Step)
    requires step.Tick? || step.PutAuth? || step.PutRequest? || step.PutCandidate? || step.PutTarget?
    ensures QuietStep(s, Next(s, step))
  {
  }

  lemma StartingIsQuiet(s: State, p: nat, path: Path)
    ensures QuietStep(s, Next(s, StartRunner(p, path)))
  {
    if ProcOf(s, p).Idle? && path in s.requests {
      SettingProcIsQuiet(s, p, Fetched(s.requests[path]));
    } else {
      assert Next(s, StartRunner(p, path)) == s;
    }
  }

  /** Every step but a runner's is quiet. */
  lemma OtherStepsAreQuiet(s: State, step: Step)
    requires !step.Advance?
    requires forall id :: id in s.sessions ==> SessionGood(s, s.sessions[id])
    ensures QuietStep(s, Next(s, step))
  {
    match step
    case OwnerDecides(id, action, actor) => DecidingIsQuiet(s, id, action, actor);
    case OpenSession(id, plan, intentAuth, terms) => OpeningIsQuiet(s, id, plan, intentAuth, terms);
    case ConsumeIntent(id) => ConsumingIntentIsQuiet(s, id);
    case StageCandidate(id, baseline) => StagingIsQuiet(s, id, baseline);
    case FinishCandidate(id, changes, testsPass, candidateAuth, terms) =>
      FinishingIsQuiet(s, id, changes, testsPass, candidateAuth, terms);
    case SubmitApply(id, requestId) => SubmittingIsQuiet(s, id, requestId);
    case PollApply(id) => PollingIsQuiet(s, id);
    case StartRunner(p, path) => StartingIsQuiet(s, p, path);
    case _ => EnvironmentIsQuiet(s, step);
  }

  lemma StepKeepsSafe(s: State, step: Step)
    requires Safe(s)
    ensures Safe(Next(s, step))
  {
    if step.Advance? {
      AdvanceKeepsSafe(s, step.p, step.choice);
    } else {
      OtherStepsAreQuiet(s, step);
      QuietStepKeepsSafe(s, Next(s, step));
    }
  }

  lemma {:induction false} EveryRunIsSafe(clock: int, target: Tree, steps: seq<Step>)
    ensures Safe(Run(clock, target, steps))
  {
    if steps != [] {
      EveryRunIsSafe(clock, target, steps[..|steps| - 1]);
      StepKeepsSafe(Run(clock, target, steps[..|steps| - 1]), steps[|steps| - 1]);
    }
  }

  lemma ReachableIsSafe(s: State)
    requires Reachable(s)
    ensures Safe(s)
  {
    var clock, target, steps :| Run(clock, target, steps) == s;
    EveryRunIsSafe(clock, target, steps);
  }

  // ---------------------------------------------------------------- what that means

  /** The owner approved this content under this id, and the approval has been spent. */
  predicate ApprovedAndSpent(s: State, id: string, binding: Binding) {
    id in s.consumed && s.consumed[id] == Fingerprint(binding) && ApprovedFor(s, id, Fingerprint(binding))
  }

  /** No target file is written, removed or rolled back unless both authorizations were approved
      and consumed, the candidate names the intent, and the path is a record of the approved
      candidate inside the scope of the approved plan. */
  lemma WritesAreTwiceAuthorized(s: State, w: TargetWrite)
    requires Reachable(s) && w in s.writes
    ensures var plan, payload := w.job.session.plan, w.job.request.payload;
            && payload.binding.Some? && payload.binding.value.CandidateFor?
            && ApprovedAndSpent(s, payload.candidateAuth, payload.binding.value)
            && ApprovedAndSpent(s, payload.intentAuth, IntentFor(plan))
            && payload.binding.value.intentAuth == payload.intentAuth
            && w.index < |payload.binding.value.records| && payload.binding.value.records[w.index].path == w.path
            && w.path in plan.allowed && payload.binding.value.allowed == plan.allowed
  {
    ReachableIsSafe(s);
    assert WriteGood(s, w);
    assert Backed(s, w.job.request.payload.candidateAuth) && Backed(s, w.job.request.payload.intentAuth);
  }

  /** What the target held when a hash check passed is what the owner approved for that record,
      and, unless a later record of the same candidate replaces it, what the approved candidate
      tree held, whatever happened to the candidate tree after verification. */
  lemma ConfirmedContentWasApproved(s: State, c: Confirmation)
    requires Reachable(s) && c in s.confirmed
    ensures var payload := c.job.request.payload;
            && payload.binding.Some? && payload.binding.value.CandidateFor?
            && ApprovedAndSpent(s, payload.candidateAuth, payload.binding.value)
            && var records, tree := payload.binding.value.records, payload.binding.value.tree.content;
            && c.index < |records| && records[c.index].after == Fingerprint(c.content)
            && (IsLast(records, c.index) ==>
                  records[c.index].path in tree && tree[records[c.index].path] == c.content)
  {
    ReachableIsSafe(s);
    assert ConfirmationGood(s, c);
    assert Backed(s, c.job.request.payload.candidateAuth);
    var records, tree := c.job.session.binding.value.records, c.job.session.binding.value.tree.content;
    if IsLast(records, c.index) {
      assert HasApprovedContent(tree, records[c.index]);
    }
  }

  /** Consumed markers and results are written once. */
  lemma MarkersAndResultsAreFinal(s: State, s': State, step: Step, id: string)
    requires Reachable(s) && s' == Next(s, step)
    ensures id in s.consumed ==> id in s'.consumed && s'.consumed[id] == s.consumed[id]
    ensures id in s.results ==> id in s'.results && s'.results[id] == s.results[id]
  {
    ReachableIsSafe(s);
    if step.Advance? {
      AdvanceIsFinal(s, step.p, step.choice, id);
    } else {
      OtherStepsAreQuiet(s, step);
    }
  }

  /** The marker and the result of one id, if any, are still what they were. */
  ghost predicate KeepsFinal(s: State, s': State, id: string) {
    && (id in s.consumed ==> id in s'.consumed && s'.consumed[id] == s.consumed[id])
    && (id in s.results ==> id in s'.results && s'.results[id] == s.results[id])
  }

  lemma AdvanceIsFinal(s: State, p: nat, choice: Choice, id: string)
    requires (forall id :: id in s.sessions ==> SessionGood(s, s.sessions[id])) && ProcGood(s, ProcOf(s, p))
    ensures KeepsFinal(s, Next(s, Advance(p, choice)), id)
  {
    MoveIsGood(s, ProcOf(s, p), choice);
    EffectIsFinal(s, Move(s, ProcOf(s, p), choice).1, id);
  }

  lemma EffectIsFinal(s: State, effect: Effect, id: string)
    requires EffectGood(s, effect)
    ensures KeepsFinal(s, Apply(s, effect), id)
  {
  }
}
