/** The two-stage upgrade: the Agent's sessions, the owner's two one-shot authorizations, and any
    number of upgrade runners, interleaved at the grain of single file operations. Request files,
    authorization requests, the candidate tree and the target tree may be rewritten by anyone at
    any time; only the Agent writes sessions, only the owner's side writes decisions. */
module UpgradeProtocol {
  import opened Common
  import opened OwnerApproval
  import opened UpgradeTransaction
  import opened UpgradeCandidate

  const SCHEMA_VERSION := 1
  const REQUEST_PREFIX := "self-upgrade-"
  const MAX_REQUEST_ID := 80

  /** What an authorization is bound to: the plan, or one exact tested candidate. */
  datatype Binding =
    | IntentFor(plan: Plan)
    | CandidateFor(sessionId: string, intentAuth: string, goal: string, scopes: set<string>, allowed: set<Path>,
                   records: seq<Record>, tree: Fingerprint<Tree>, baseline: Fingerprint<Tree>)

  datatype AuthFile = AuthFile(request: ApprovalRequest<Binding>, expiresAt: int)

  datatype SessionStatus =
    AwaitingIntent | Generating | AwaitingCandidate | ApplyQueued | Succeeded | Failed | Refused | Lapsed

  datatype Session = Session(
    id: string,
    plan: Plan,
    status: SessionStatus,
    intentAuth: string,
    intentConsumed: bool,
    baseline: Option<Tree>,
    candidateAuth: string,
    binding: Option<Binding>,
    records: seq<Record>,
    applyRequest: Option<string>)

  datatype ApplyPayload = ApplyPayload(
    schemaVersion: int,
    sessionId: string,
    intentAuth: string,
    candidateAuth: string,
    binding: Option<Binding>,
    digest: Fingerprint<Tree>,
    records: seq<Record>)

  /** The sha256 digest of a request payload. */
  datatype PayloadDigest = PayloadDigest(content: ApplyPayload)

  datatype UpgradeRequest = UpgradeRequest(id: string, payload: ApplyPayload, fingerprint: PayloadDigest)

  /** A result file. It names the session and the changed files; the model keeps the whole job. */
  datatype UpgradeResult = Applied(job: Job) | NotApplied

  /** What verification saw of one record: the candidate file and the target file. */
  datatype Sight = Sight(candidate: Content, target: Option<Content>)

  /** The job a runner has validated, and, once it has verified it, what it saw. */
  datatype Job = Job(request: UpgradeRequest, session: Session)
  datatype Evidence = Evidence(tree: Tree, sights: seq<Sight>, tested: bool)

  datatype Proc =
    | Idle
    | Fetched(request: UpgradeRequest)
    | AtLock(request: UpgradeRequest)
    | Validating(request: UpgradeRequest)
    | Checking(job: Job)
    | VerifyingTree(job: Job)
    | VerifyingFiles(job: Job, evidence: Evidence)
    | Testing(job: Job, evidence: Evidence)
    | Rechecking(job: Job, evidence: Evidence)           // consume_auth asks check_auth again
    | Marking(job: Job, evidence: Evidence)              // approved; about to create the consumed marker
    | BackingUp(job: Job, evidence: Evidence)            // marker created; about to call apply_files
    | Copying(job: Job, backup: Backup, next: nat)
    | Comparing(job: Job, backup: Backup, next: nat)
    | RollingBack(job: Job, backup: Backup, left: nat)
    | Publishing(id: string, result: UpgradeResult)
    | Unlocking(id: string)

  /** History: one call of apply_files, and the evidence the caller held. */
  datatype ApplyStart = ApplyStart(job: Job, evidence: Evidence)

  /** History: one write or removal of a target file on behalf of a record. */
  datatype TargetWrite = TargetWrite(job: Job, index: nat, path: Path)

  /** History: a hash check after a write that passed, and what the target held at that moment. */
  datatype Confirmation = Confirmation(job: Job, index: nat, content: Content)

  datatype State = State(
    clock: int,
    auths: map<string, AuthFile>,
    decisions: map<string, Decision<Binding>>,
    consumed: map<string, Fingerprint<Binding>>,
    sessions: map<string, Session>,
    requests: map<string, UpgradeRequest>,
    results: map<string, UpgradeResult>,
    locks: set<string>,
    backups: map<string, Backup>,
    candidate: Tree,
    target: Tree,
    procs: map<nat, Proc>,
    applies: seq<ApplyStart>,
    writes: seq<TargetWrite>,
    confirmed: seq<Confirmation>)

  datatype CopyChoice = CopyRaises | CopyWorks | CopyRaisesAfterwards

  /** What the environment decides for one runner step. */
  datatype Choice = Choice(scansPass: bool, testsPass: bool, copy: CopyChoice, hashReadable: bool, unlinkWorks: bool)

  /** What the environment decides when the owner is asked: the quorum policy and the life times. */
  datatype AuthTerms = AuthTerms(created: bool, ttlSeconds: Option<int>, quorum: Option<int>, expiresAt: int)

  datatype Step =
    | Tick(seconds: nat)
    | PutAuth(id: string, file: AuthFile)
    | PutRequest(path: string, request: UpgradeRequest)
    | PutCandidate(tree: Tree)
    | PutTarget(tree: Tree)
    | OwnerDecides(id: string, action: Action, actor: string)
    | OpenSession(id: string, plan: Plan, intentAuth: string, terms: AuthTerms)
    | ConsumeIntent(id: string)
    | StageCandidate(id: string, baseline: Tree)
    | FinishCandidate(id: string, changes: seq<Change>, testsPass: bool, candidateAuth: string, terms: AuthTerms)
    | SubmitApply(id: string, requestId: string)
    | PollApply(id: string)
    | StartRunner(p: nat, path: string)
    | Advance(p: nat, choice: Choice)

  // ---------------------------------------------------------------- authorizations

  function AuthState(s: State, id: string, expected: Binding): AuthStatus {
    if id !in s.auths then AuthNotFound
    else CheckAuth(s.auths[id].request, s.auths[id].expiresAt, id in s.consumed,
                   if id in s.decisions then Some(s.decisions[id]) else None, Some(expected), s.clock)
  }

  function NewAuth(id: string, binding: Binding, terms: AuthTerms): AuthFile {
    AuthFile(ApprovalRequest(id, binding, Some(Fingerprint(binding)), terms.ttlSeconds, terms.quorum), terms.expiresAt)
  }

  /** Authorization ids are random; a new one collides with nothing. */
  predicate Unused(s: State, id: string) {
    id !in s.auths && id !in s.decisions && id !in s.consumed
  }

  function Decided(s: State, id: string, action: Action, actor: string): State {
    if id !in s.auths || s.auths[id].request.id != id then s
    else
      var existing := if id in s.decisions then Some(s.decisions[id]) else None;
      match ApplyOwnerDecision(s.auths[id].request, existing, action, actor, s.clock)
      case Err(_) => s
      case Ok(d) => s.(decisions := s.decisions[id := d])
  }

  // ---------------------------------------------------------------- the Agent's session steps

  function SessionOpened(s: State, id: string, plan: Plan, intentAuth: string, terms: AuthTerms): State {
    if id in s.sessions || !terms.created || !Unused(s, intentAuth) then s
    else
      var session := Session(id, plan, AwaitingIntent, intentAuth, false, None, "", None, [], None);
      s.(sessions := s.sessions[id := session],
         auths := s.auths[intentAuth := NewAuth(intentAuth, IntentFor(plan), terms)])
  }

  /** What checking its intent authorization makes of a session. */
  function AfterIntentCheck(session: Session, state: AuthStatus): Session {
    match state
    case AuthDenied => session.(status := Refused)
    case AuthPending => session
    case AuthNotFound => session
    case AuthExpired => session.(status := Lapsed)
    case AuthUsed => if session.intentConsumed then session else session.(status := Failed)
    case AuthBindingMismatch => session.(status := Failed)
    case AuthApproved => session.(intentConsumed := true)
  }

  function IntentConsumed(s: State, id: string): State {
    if id !in s.sessions || !s.sessions[id].status.AwaitingIntent? then s
    else
      var session := s.sessions[id];
      var binding := IntentFor(session.plan);
      var state := AuthState(s, session.intentAuth, binding);
      s.(consumed := if state.AuthApproved? then s.consumed[session.intentAuth := Fingerprint(binding)] else s.consumed,
         sessions := s.sessions[id := AfterIntentCheck(session, state)])
  }

  function CandidateStaged(s: State, id: string, baseline: Tree): State {
    if id !in s.sessions || !s.sessions[id].status.AwaitingIntent? || !s.sessions[id].intentConsumed then s
    else
      s.(candidate := baseline,
         sessions := s.sessions[id := s.sessions[id].(status := Generating, baseline := Some(baseline))])
  }

  function CandidateBinding(session: Session, records: seq<Record>, tree: Tree): Binding
    requires session.baseline.Some?
  {
    CandidateFor(session.id, session.intentAuth, session.plan.goal, session.plan.scopes, session.plan.allowed,
                 records, Fingerprint(tree), Fingerprint(session.baseline.value))
  }

  function CandidateFinished(
    s: State, id: string, changes: seq<Change>, testsPass: bool, candidateAuth: string, terms: AuthTerms
  ): State
  {
    if id !in s.sessions || !s.sessions[id].status.Generating? || s.sessions[id].baseline.None? then s
    else
      var session := s.sessions[id];
      var baseline := session.baseline.value;
      if !Stageable(session.plan, baseline, changes) then s.(sessions := s.sessions[id := session.(status := Failed)])
      else
        var tree := Overlay(s.candidate, changes);
        var staged := s.(candidate := tree);
        if !testsPass || !terms.created || !Unused(s, candidateAuth) then
          staged.(sessions := s.sessions[id := session.(status := Failed)])
        else
          var records := RecordsOf(baseline, changes);
          var binding := CandidateBinding(session, records, tree);
          staged.(auths := s.auths[candidateAuth := NewAuth(candidateAuth, binding, terms)],
                  sessions := s.sessions[id := session.(status := AwaitingCandidate, binding := Some(binding),
                                                        candidateAuth := candidateAuth, records := records)])
  }

  function PayloadFor(session: Session): ApplyPayload
    requires session.binding.Some? && session.binding.value.CandidateFor?
  {
    ApplyPayload(SCHEMA_VERSION, session.id, session.intentAuth, session.candidateAuth, session.binding,
                 session.binding.value.tree, session.records)
  }

  /** What submitting makes of a session; `taken` says that the request file exists already. */
  function AfterSubmission(session: Session, state: AuthStatus, requestId: string, taken: bool): Session {
    match state
    case AuthDenied => session.(status := Refused)
    case AuthPending => session
    case AuthNotFound => session
    case AuthExpired => session.(status := Lapsed)
    case AuthBindingMismatch => session.(status := Failed)
    case AuthUsed => if session.applyRequest.None? then session.(status := Failed) else session
    case AuthApproved =>
      if session.applyRequest.Some? then session
      else if taken then session.(status := Failed)
      else session.(applyRequest := Some(requestId), status := ApplyQueued)
  }

  function ApplySubmitted(s: State, id: string, requestId: string): State {
    if id !in s.sessions || !s.sessions[id].status.AwaitingCandidate?
       || s.sessions[id].binding.None? || !s.sessions[id].binding.value.CandidateFor? then s
    else
      var session := s.sessions[id];
      var state := AuthState(s, session.candidateAuth, session.binding.value);
      var payload := PayloadFor(session);
      s.(requests := if state.AuthApproved? && session.applyRequest.None? && requestId !in s.requests
                     then s.requests[requestId := UpgradeRequest(requestId, payload, PayloadDigest(payload))]
                     else s.requests,
         sessions := s.sessions[id := AfterSubmission(session, state, requestId, requestId in s.requests)])
  }

  function ApplyPolled(s: State, id: string): State {
    if id !in s.sessions || !s.sessions[id].status.ApplyQueued? || s.sessions[id].applyRequest.None?
       || s.sessions[id].applyRequest.value !in s.results then s
    else
      var status := if s.results[s.sessions[id].applyRequest.value].Applied? then Succeeded else Failed;
      s.(sessions := s.sessions[id := s.sessions[id].(status := status)])
  }

  // ---------------------------------------------------------------- the runner

  function ProcOf(s: State, p: nat): Proc {
    if p in s.procs then s.procs[p] else Idle
  }

  predicate ValidRequest(s: State, r: UpgradeRequest) {
    && REQUEST_PREFIX <= r.id && |r.id| <= MAX_REQUEST_ID
    && r.fingerprint == PayloadDigest(r.payload)
    && r.payload.schemaVersion == SCHEMA_VERSION
    && r.payload.sessionId in s.sessions
    && Matches(r.payload, s.sessions[r.payload.sessionId])
  }

  predicate Matches(payload: ApplyPayload, session: Session) {
    && (session.status.ApplyQueued? || session.status.AwaitingCandidate?)
    && session.intentConsumed
    && payload.intentAuth == session.intentAuth
    && payload.candidateAuth == session.candidateAuth
    && payload.binding == session.binding && session.binding.Some? && session.binding.value.CandidateFor?
    && payload.records == session.records
  }

  function HashAt(tree: Tree, path: Path): Option<Fingerprint<Content>> {
    if path in tree then Some(Fingerprint(tree[path])) else None
  }

  predicate FileVerifies(s: State, plan: Plan, record: Record) {
    && record.path in plan.allowed
    && HashAt(s.candidate, record.path) == Some(record.after)
    && HashAt(s.target, record.path) == record.before
  }

  function Look(s: State, path: Path): Sight
    requires path in s.candidate
  {
    Sight(s.candidate[path], if path in s.target then Some(s.target[path]) else None)
  }

  /** The single shared-file effect of a runner step. */
  datatype Effect =
    | NoEffect
    | CreateLock(lock: string)
    | RemoveLock(lock: string)
    | CreateResult(id: string, result: UpgradeResult)
    | Consume(auth: string, marker: Fingerprint<Binding>)
    | EnterApply(start: ApplyStart, saved: Option<Backup>)
    | WriteTarget(write: TargetWrite, content: Option<Content>)
    | Confirm(confirmation: Confirmation)

  function Reject(id: string): (Proc, Effect) {
    (Publishing(id, NotApplied), NoEffect)
  }

  /** From the queue to the moment the authorization is marked as used. */
  function MoveBeforeApply(s: State, proc: Proc, choice: Choice): (Proc, Effect)
    requires BeforeApply(proc)
  {
    match proc
    case Fetched(r) => (if r.id in s.results then Idle else AtLock(r), NoEffect)
    case AtLock(r) => if r.id in s.locks then (Idle, NoEffect) else (Validating(r), CreateLock(r.id))
    case Validating(r) =>
      if ValidRequest(s, r) then (Checking(Job(r, s.sessions[r.payload.sessionId])), NoEffect) else Reject(r.id)
    case Checking(job) =>
      if job.session.binding.None? then Reject(job.request.id)
      else
        (match AuthState(s, job.request.payload.candidateAuth, job.session.binding.value)
         case AuthPending => (Unlocking(job.request.id), NoEffect)
         case AuthApproved => (VerifyingTree(job), NoEffect)
         case _ => Reject(job.request.id))
    case VerifyingTree(job) =>
      if job.session.binding.None? || !job.session.binding.value.CandidateFor?
         || Fingerprint(s.candidate) != job.request.payload.digest
         || job.session.binding.value.tree != Fingerprint(s.candidate)
      then Reject(job.request.id)
      else (VerifyingFiles(job, Evidence(s.candidate, [], false)), NoEffect)
    case VerifyingFiles(job, evidence) =>
      var records := job.request.payload.records;
      var i := |evidence.sights|;
      if i >= |records| then (Testing(job, evidence), NoEffect)
      else if FileVerifies(s, job.session.plan, records[i]) && choice.scansPass then
        (VerifyingFiles(job, evidence.(sights := evidence.sights + [Look(s, records[i].path)])), NoEffect)
      else Reject(job.request.id)
    case Testing(job, evidence) =>
      if choice.testsPass then (Rechecking(job, evidence.(tested := choice.testsPass)), NoEffect)
      else Reject(job.request.id)
    case Rechecking(job, evidence) =>
      if job.session.binding.Some?
         && AuthState(s, job.request.payload.candidateAuth, job.session.binding.value).AuthApproved?
      then (Marking(job, evidence), NoEffect) else Reject(job.request.id)
    case Marking(job, evidence) =>
      var auth := job.request.payload.candidateAuth;
      if auth in s.consumed || job.session.binding.None? then Reject(job.request.id)
      else (BackingUp(job, evidence), Consume(auth, Fingerprint(job.session.binding.value)))
  }

  predicate BeforeApply(proc: Proc) {
    proc.Fetched? || proc.AtLock? || proc.Validating? || proc.Checking? || proc.VerifyingTree?
    || proc.VerifyingFiles? || proc.Testing? || proc.Rechecking? || proc.Marking?
  }

  /** What rolling back one backup entry does to the target. */
  function RestoringEffect(job: Job, backup: Backup, index: nat): Effect
    requires index < |backup.manifest|
  {
    var entry := backup.manifest[index];
    if entry.existed && SavedContent(backup, entry).None? then NoEffect
    else WriteTarget(TargetWrite(job, index, entry.path), SavedContent(backup, entry))
  }

  /** apply_files: backup, copy and compare record by record, roll back on any failure. */
  function MoveInApply(s: State, proc: Proc, choice: Choice): (Proc, Effect)
    requires !BeforeApply(proc)
  {
    match proc
    case Idle => (Idle, NoEffect)
    case BackingUp(job, evidence) =>
      var start, backup := ApplyStart(job, evidence), BackupOf(s.target, job.request.payload.records);
      if job.request.id in s.backups then (Publishing(job.request.id, NotApplied), EnterApply(start, None))
      else (Copying(job, backup, 0), EnterApply(start, Some(backup)))
    case Copying(job, backup, i) =>
      var records := job.request.payload.records;
      if i >= |records| then (Publishing(job.request.id, Applied(job)), NoEffect)
      else if choice.copy.CopyRaises? || records[i].path !in s.candidate then
        (RollingBack(job, backup, |backup.manifest|), NoEffect)
      else
        (if choice.copy.CopyWorks? then Comparing(job, backup, i) else RollingBack(job, backup, |backup.manifest|),
         WriteTarget(TargetWrite(job, i, records[i].path), Some(s.candidate[records[i].path])))
    case Comparing(job, backup, i) =>
      var records := job.request.payload.records;
      if i < |records| && choice.hashReadable && HashAt(s.target, records[i].path) == Some(records[i].after) then
        (Copying(job, backup, i + 1), Confirm(Confirmation(job, i, s.target[records[i].path])))
      else (RollingBack(job, backup, |backup.manifest|), NoEffect)
    case RollingBack(job, backup, left) =>
      if left == 0 || left > |backup.manifest| then Reject(job.request.id)
      else
        (RollingBack(job, backup, left - 1), RestoringEffect(job, backup, left - 1))
    case Publishing(id, result) =>
      (Unlocking(id), if id in s.results then NoEffect else CreateResult(id, result))
    case Unlocking(id) => (Idle, if choice.unlinkWorks then RemoveLock(id) else NoEffect)
  }

  function Move(s: State, proc: Proc, choice: Choice): (Proc, Effect) {
    if BeforeApply(proc) then MoveBeforeApply(s, proc, choice) else MoveInApply(s, proc, choice)
  }

  function Apply(s: State, effect: Effect): State {
    match effect
    case NoEffect => s
    case CreateLock(id) => s.(locks := s.locks + {id})
    case RemoveLock(id) => s.(locks := s.locks - {id})
    case CreateResult(id, result) => s.(results := s.results[id := result])
    case Consume(auth, marker) => s.(consumed := s.consumed[auth := marker])
    case EnterApply(start, saved) =>
      s.(applies := s.applies + [start],
         backups := if saved.Some? then s.backups[start.job.request.id := saved.value] else s.backups)
    case WriteTarget(write, content) =>
      s.(target := Put(s.target, write.path, content),
         writes := s.writes + [write])
    case Confirm(confirmation) => s.(confirmed := s.confirmed + [confirmation])
  }

  function Next(s: State, step: Step): State {
    match step
    case Tick(seconds) => s.(clock := s.clock + seconds)
    case PutAuth(id, file) => s.(auths := s.auths[id := file])
    case PutRequest(path, request) => s.(requests := s.requests[path := request])
    case PutCandidate(tree) => s.(candidate := tree)
    case PutTarget(tree) => s.(target := tree)
    case OwnerDecides(id, action, actor) => Decided(s, id, action, actor)
    case OpenSession(id, plan, intentAuth, terms) => SessionOpened(s, id, plan, intentAuth, terms)
    case ConsumeIntent(id) => IntentConsumed(s, id)
    case StageCandidate(id, baseline) => CandidateStaged(s, id, baseline)
    case FinishCandidate(id, changes, testsPass, candidateAuth, terms) =>
      CandidateFinished(s, id, changes, testsPass, candidateAuth, terms)
    case SubmitApply(id, requestId) => ApplySubmitted(s, id, requestId)
    case PollApply(id) => ApplyPolled(s, id)
    case StartRunner(p, path) =>
      if ProcOf(s, p).Idle? && path in s.requests then s.(procs := s.procs[p := Fetched(s.requests[path])]) else s
    case Advance(p, choice) =>
      var (proc, effect) := Move(s, ProcOf(s, p), choice);
      Apply(s, effect).(procs := s.procs[p := proc])
  }

  function Init(clock: int, target: Tree): State {
    State(clock, map[], map[], map[], map[], map[], map[], {}, map[], map[], target, map[], [], [], [])
  }

  function Run(clock: int, target: Tree, steps: seq<Step>): State {
    if steps == [] then Init(clock, target) else Next(Run(clock, target, steps[..|steps| - 1]), steps[|steps| - 1])
  }

  /** The states some run reaches: any processes, interleaved in any way, from any target tree. */
  ghost predicate Reachable(s: State) {
    exists clock, target, steps :: Run(clock, target, steps) == s
  }
}
