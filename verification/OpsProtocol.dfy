/** The queue protocol between the Agent, the owner, any number of runners and any number of
    revocations, at the grain of single file operations. Every read, exclusive create, replace
    and unlink is one step; request files may be rewritten by anyone at any time. */
module OpsProtocol {
  import opened Common
  import opened OwnerApproval
  import opened Operations

  datatype ResultStatus = Succeeded | Failed | Blocked | Lapsed | Cancelled

  /** A trusted result file. `ran` records whether its writer had sent the operation to the server. */
  datatype TrustedResult = TrustedResult(status: ResultStatus, ran: bool)

  /** One call of `_execute`. `timely` records whether no result file existed at the moment the
      executing process created its lock. */
  datatype Execution = Execution(id: string, payload: Payload, timely: bool)

  datatype RunnerMode = AllOperations | ChangeOnly | ReadOnly

  /** Program counter and local variables of a runner pass or a revocation. */
  datatype Proc =
    | Idle
    | Fetched(path: string, request: Request)       // lifecycle entry has read the request
    | Handoff(path: string)                          // not expired: delegated to the base runner
    | Refetched(request: Request)                    // the base runner has read the request again
    | AtLock(request: Request)                       // no result seen; about to create the lock
    | Authorizing(request: Request, timely: bool)     // lock created
    | Executing(request: Request, timely: bool)       // validated and approved
    | ExpiryAtLock(id: string)                       // expired: about to create the lock
    | ExpiryLocked(id: string, timely: bool)
    | RevokeFetched(request: Request)
    | RevokeTested(id: string)
    | RevokeAtLock(id: string)
    | RevokeLocked(id: string, timely: bool)
    | RevokeReloaded(request: Request, timely: bool)
    | Publishing(id: string, result: TrustedResult, timely: bool)
    | Unlocking(id: string)

  datatype State = State(
    clock: int,
    requests: map<string, Request>,
    decisions: map<string, OpDecision>,
    results: map<string, TrustedResult>,
    locks: set<string>,
    procs: map<nat, Proc>,
    log: seq<Execution>,
    approved: map<string, Payload>)   // history: the payload an approving decision was written for

  datatype ExecuteOutcome = AllCommandsOk | SomeCommandFailed | Raised

  /** What the environment decides for one step: target policy, commands, and whether unlink works. */
  datatype Choice = Choice(policyAllows: bool, outcome: ExecuteOutcome, unlinkWorks: bool)

  datatype Step =
    | Tick(seconds: nat)
    | PutRequest(path: string, request: Request)
    | DropRequest(path: string)
    | OwnerDecides(id: string, action: Action, actor: string)
    | StartRunner(p: nat, path: string, mode: RunnerMode)
    | StartRevocation(p: nat, id: string)
    | Advance(p: nat, choice: Choice)

  /** The risk a runner assigns to an operation, whatever the request file claims. */
  function OperationRisk(payload: Payload): Option<Risk> {
    match payload.capability
    case ServerOperations =>
      (match payload.operation
       case Inspect => Some(Read)
       case DockerPs => Some(Read)
       case ServiceStatus => Some(Read)
       case AptUpdate => Some(Change)
       case ComposeDeploy => Some(Change)
       case ComposeDown => Some(Change)
       case ServiceRestart => Some(Change)
       case DockerInstall => Some(Privileged)
       case _ => None)
    case DockerOperations =>
      (match payload.operation
       case GetDockerLogs => Some(Read)
       case InspectDockerContainer => Some(Read)
       case RunDockerCheck => Some(Read)
       case RestartDockerContainer => Some(Change)
       case _ => None)
    case OtherCapability(_) => None
  }

  predicate RunnerAccepts(mode: RunnerMode, request: Request) {
    match mode
    case AllOperations => true
    case ChangeOnly => OperationRisk(request.payload) != Some(Read)
    case ReadOnly => OperationRisk(request.payload) == Some(Read)
  }

  predicate Validates(request: Request, policyAllows: bool) {
    && OperationRisk(request.payload) == Some(request.risk)
    && PayloadIntact(request)
    && policyAllows
  }

  datatype Authorization = MayRun | MustWait | MustBlock

  function AuthorizationState(s: State, request: Request): Authorization {
    if OperationRisk(request.payload) == Some(Read) then MayRun
    else if request.id !in s.decisions then MustWait
    else
      var d := s.decisions[request.id];
      if d.requestId != request.id then MustBlock
      else if !d.verdict.Approved? || DecisionLapsed(d, s.clock) then MustBlock
      else if d.fingerprint != Fingerprint(request.payload) then MustBlock
      else MayRun
  }

  predicate Revocable(s: State, id: string) {
    id in s.requests && s.requests[id].id == id && PayloadIntact(s.requests[id])
  }

  function ProcOf(s: State, p: nat): Proc {
    if p in s.procs then s.procs[p] else Idle
  }

  /** The single shared-file effect of a step. */
  datatype Effect = NoEffect | CreateLock(lock: string) | RemoveLock(lock: string)
                  | CreateResult(id: string, result: TrustedResult) | RunCommands(execution: Execution)

  /** `O_EXCL` lock creation: give up when the file exists. */
  function TryLock(s: State, id: string, locked: Proc): (Proc, Effect) {
    if id in s.locks then (Idle, NoEffect) else (locked, CreateLock(id))
  }

  function Move(s: State, p: nat, choice: Choice): (Proc, Effect) {
    match ProcOf(s, p)
    case Idle => (Idle, NoEffect)
    case Fetched(path, r) =>
      (if r.id in s.results then Idle
       else if RequestExpired(r, s.clock) then ExpiryAtLock(r.id)
       else Handoff(path), NoEffect)
    case Handoff(path) =>
      (if path in s.requests then Refetched(s.requests[path]) else Idle, NoEffect)
    case Refetched(r) =>
      (if r.id in s.results then Idle else AtLock(r), NoEffect)
    case AtLock(r) =>
      TryLock(s, r.id, Authorizing(r, r.id !in s.results))
    case Authorizing(r, timely) =>
      (if !Validates(r, choice.policyAllows) then Publishing(r.id, TrustedResult(Failed, false), timely)
       else match AuthorizationState(s, r)
            case MustWait => Unlocking(r.id)
            case MustBlock => Publishing(r.id, TrustedResult(Blocked, false), timely)
            case MayRun => Executing(r, timely), NoEffect)
    case Executing(r, timely) =>
      (Publishing(r.id, TrustedResult(if choice.outcome.AllCommandsOk? then Succeeded else Failed, true), timely),
       RunCommands(Execution(r.id, r.payload, timely)))
    case ExpiryAtLock(id) =>
      TryLock(s, id, ExpiryLocked(id, id !in s.results))
    case ExpiryLocked(id, timely) =>
      (if id in s.results then Unlocking(id) else Publishing(id, TrustedResult(Lapsed, false), timely), NoEffect)
    case RevokeFetched(r) =>
      (if r.id in s.results || RequestExpired(r, s.clock) then Idle else RevokeTested(r.id), NoEffect)
    case RevokeTested(id) =>
      (if id in s.decisions && s.decisions[id].verdict.Denied? then Idle else RevokeAtLock(id), NoEffect)
    case RevokeAtLock(id) =>
      TryLock(s, id, RevokeLocked(id, id !in s.results))
    case RevokeLocked(id, timely) =>
      (if Revocable(s, id) then RevokeReloaded(s.requests[id], timely) else Unlocking(id), NoEffect)
    case RevokeReloaded(r, timely) =>
      (if r.id in s.results || RequestExpired(r, s.clock) then Unlocking(r.id)
       else Publishing(r.id, TrustedResult(Cancelled, false), timely), NoEffect)
    case Publishing(id, result, _) =>
      (Unlocking(id), if id in s.results then NoEffect else CreateResult(id, result))
    case Unlocking(id) =>
      (Idle, if choice.unlinkWorks then RemoveLock(id) else NoEffect)
  }

  function Apply(s: State, effect: Effect): State {
    match effect
    case NoEffect => s
    case CreateLock(id) => s.(locks := s.locks + {id})
    case RemoveLock(id) => s.(locks := s.locks - {id})
    case CreateResult(id, result) => s.(results := s.results[id := result])
    case RunCommands(execution) => s.(log := s.log + [execution])
  }

  function Decided(s: State, id: string, action: Action, actor: string): State {
    if id !in s.requests || s.requests[id].id != id then s
    else
      var existing := if id in s.decisions then Some(s.decisions[id]) else None;
      match ApplyOwnerDecision(ForApproval(s.requests[id]), existing, action, actor, s.clock)
      case Err(_) => s
      case Ok(d) =>
        var s' := s.(decisions := s.decisions[id := d]);
        if d.verdict.Approved? && !(existing.Some? && existing.value.verdict.Approved?)
        then s'.(approved := s.approved[id := s.requests[id].payload])
        else s'
  }

  /** One step of the system; a step that is not enabled changes nothing. */
  function Next(s: State, step: Step): State {
    match step
    case Tick(seconds) => s.(clock := s.clock + seconds)
    case PutRequest(path, request) => s.(requests := s.requests[path := request])
    case DropRequest(path) => s.(requests := s.requests - {path})
    case OwnerDecides(id, action, actor) => Decided(s, id, action, actor)
    case StartRunner(p, path, mode) =>
      if ProcOf(s, p).Idle? && path in s.requests && RunnerAccepts(mode, s.requests[path])
      then s.(procs := s.procs[p := Fetched(path, s.requests[path])]) else s
    case StartRevocation(p, id) =>
      if ProcOf(s, p).Idle? && Revocable(s, id)
      then s.(procs := s.procs[p := RevokeFetched(s.requests[id])]) else s
    case Advance(p, choice) =>
      var (proc, effect) := Move(s, p, choice);
      Apply(s, effect).(procs := s.procs[p := proc])
  }

  function Init(clock: int): State {
    State(clock, map[], map[], map[], {}, map[], [], map[])
  }

  /** The state after a run: any number of processes interleaved in any way. */
  function Run(clock: int, steps: seq<Step>): State {
    if steps == [] then Init(clock) else Next(Run(clock, steps[..|steps| - 1]), steps[|steps| - 1])
  }

  function Executions(log: seq<Execution>, id: string): nat {
    if log == [] then 0
    else Executions(log[..|log| - 1], id) + if log[|log| - 1].id == id then 1 else 0
  }

  function TimelyExecutions(log: seq<Execution>, id: string): nat {
    if log == [] then 0
    else TimelyExecutions(log[..|log| - 1], id) + if log[|log| - 1].id == id && log[|log| - 1].timely then 1 else 0
  }

  predicate AllTimely(log: seq<Execution>, id: string) {
    forall e :: e in log && e.id == id ==> e.timely
  }

  lemma {:induction false} TimelyCount(log: seq<Execution>, id: string)
    ensures TimelyExecutions(log, id) <= Executions(log, id)
    ensures TimelyExecutions(log, id) == Executions(log, id) <==> AllTimely(log, id)
    ensures Executions(log, id) > 0 <==> exists e :: e in log && e.id == id
  {
    if log != [] {
      TimelyCount(log[..|log| - 1], id);
      assert log == log[..|log| - 1] + [log[|log| - 1]];
    }
  }

  lemma LogGrows(log: seq<Execution>, e: Execution, id: string)
    ensures Executions(log + [e], id) == Executions(log, id) + if e.id == id then 1 else 0
    ensures TimelyExecutions(log + [e], id) == TimelyExecutions(log, id) + if e.id == id && e.timely then 1 else 0
  {
    assert (log + [e])[..|log|] == log;
  }

  // ---------------------------------------------------------------- the lock invariant

  predicate Holds(proc: Proc) {
    proc.Authorizing? || proc.Executing? || proc.ExpiryLocked? || proc.RevokeLocked?
    || proc.RevokeReloaded? || proc.Publishing? || proc.Unlocking?
  }

  function HeldId(proc: Proc): string
    requires Holds(proc)
  {
    match proc
    case Authorizing(r, _) => r.id
    case Executing(r, _) => r.id
    case RevokeReloaded(r, _) => r.id
    case ExpiryLocked(id, _) => id
    case RevokeLocked(id, _) => id
    case Publishing(id, _, _) => id
    case Unlocking(id) => id
  }

  /** Only an executed operation succeeds; only results of operations that never started
      say blocked, expired or cancelled. */
  predicate Honest(result: TrustedResult) {
    match result.status
    case Succeeded => result.ran
    case Failed => true
    case _ => !result.ran
  }

  /** What the holder of a lock knows: the timeliness it recorded is still the truth, because
      nobody else can publish a result for this request. */
  ghost predicate HolderKnows(s: State, proc: Proc)
    requires Holds(proc)
  {
    var id := HeldId(proc);
    var runs := TimelyExecutions(s.log, id);
    if proc.Unlocking? then id in s.results || runs == 0
    else
      && proc.timely == (id !in s.results)
      && (proc.timely ==> runs == if proc.Publishing? && proc.result.ran then 1 else 0)
      && (proc.Publishing? ==> Honest(proc.result))
  }

  ghost predicate RequestConsistent(s: State, id: string) {
    var runs := TimelyExecutions(s.log, id);
    && runs <= 1
    && (id in s.results ==> runs == (if s.results[id].ran then 1 else 0) && Honest(s.results[id]))
    && (id !in s.results && id !in s.locks ==> runs == 0)
    && (Executions(s.log, id) > runs ==> id in s.results)
  }

  ghost predicate LockInvariant(s: State) {
    && (forall p :: p in s.procs && Holds(s.procs[p]) ==> HeldId(s.procs[p]) in s.locks && HolderKnows(s, s.procs[p]))
    && (forall p, q :: p in s.procs && q in s.procs && p != q && Holds(s.procs[p]) && Holds(s.procs[q])
                       ==> HeldId(s.procs[p]) != HeldId(s.procs[q]))
    && (forall id :: RequestConsistent(s, id))
  }

  /** Steps that leave locks, results and the log alone cannot disturb the invariant as long as
      they create no lock holder. */
  lemma BystandersKeepLockInvariant(s: State, s': State)
    requires LockInvariant(s)
    requires s'.log == s.log && s'.results == s.results && s'.locks == s.locks
    requires forall p :: p in s'.procs && Holds(s'.procs[p]) ==> p in s.procs && s.procs[p] == s'.procs[p]
    ensures LockInvariant(s')
  {
    forall id
      ensures RequestConsistent(s', id)
    {
      assert RequestConsistent(s, id);
    }
    forall p | p in s'.procs && Holds(s'.procs[p])
      ensures HeldId(s'.procs[p]) in s'.locks && HolderKnows(s', s'.procs[p])
    {
      assert HolderKnows(s, s.procs[p]);
    }
  }

  /** What a process may do with locks and results, whatever it is: take a free lock and note
      whether the request was still unanswered, work under the lock it holds, publish, let go. */
  ghost predicate Disciplined(s: State, before: Proc, after: Proc, effect: Effect) {
    if !Holds(before) then
      if effect.NoEffect? then !Holds(after)
      else
        && effect.CreateLock? && effect.lock !in s.locks
        && Holds(after) && HeldId(after) == effect.lock
        && !after.Unlocking? && !after.Publishing? && after.timely == (effect.lock !in s.results)
    else if before.Unlocking? then
      after.Idle? && (effect.NoEffect? || effect == RemoveLock(before.id))
    else if before.Publishing? then
      && after == Unlocking(before.id)
      && effect == if before.id in s.results then NoEffect else CreateResult(before.id, before.result)
    else
      && Holds(after) && HeldId(after) == HeldId(before)
      && (after.Unlocking? || after.timely == before.timely)
      && (effect.NoEffect? || effect.RunCommands?)
      && (effect.NoEffect? && after.Publishing? ==> !after.result.ran && Honest(after.result))
      && (effect.RunCommands? ==>
            && effect.execution.id == HeldId(before) && effect.execution.timely == before.timely
            && after.Publishing? && after.result.ran && Honest(after.result))
  }

  lemma UnlockedMoveIsDisciplined(s: State, p: nat, choice: Choice)
    requires !Holds(ProcOf(s, p))
    ensures Disciplined(s, ProcOf(s, p), Move(s, p, choice).0, Move(s, p, choice).1)
  {
  }

  lemma LockedMoveIsDisciplined(s: State, p: nat, choice: Choice)
    requires Holds(ProcOf(s, p))
    ensures Disciplined(s, ProcOf(s, p), Move(s, p, choice).0, Move(s, p, choice).1)
  {
  }

  lemma MoveIsDisciplined(s: State, p: nat, choice: Choice)
    ensures Disciplined(s, ProcOf(s, p), Move(s, p, choice).0, Move(s, p, choice).1)
  {
    if Holds(ProcOf(s, p)) {
      LockedMoveIsDisciplined(s, p, choice);
    } else {
      UnlockedMoveIsDisciplined(s, p, choice);
    }
  }

  ghost predicate Knows(s: State, proc: Proc) {
    Holds(proc) ==> HeldId(proc) in s.locks && HolderKnows(s, proc)
  }

  lemma RunningKeepsRequest(s: State, before: Proc, after: Proc, effect: Effect, id: string)
    requires effect.RunCommands? && Disciplined(s, before, after, effect) && Knows(s, before)
    requires RequestConsistent(s, id)
    ensures RequestConsistent(Apply(s, effect), id)
  {
    LogGrows(s.log, effect.execution, id);
  }

  /** The request-level half, for one request: only the lock holder can touch it. */
  lemma RequestStaysConsistent(s: State, before: Proc, after: Proc, effect: Effect, id: string)
    requires Disciplined(s, before, after, effect) && Knows(s, before)
    requires RequestConsistent(s, id)
    ensures RequestConsistent(Apply(s, effect), id)
  {
    if effect.RunCommands? {
      RunningKeepsRequest(s, before, after, effect, id);
    }
  }

  /** The holder-level half for the process that moved. */
  lemma MoverStillKnows(s: State, before: Proc, after: Proc, effect: Effect)
    requires Disciplined(s, before, after, effect) && Knows(s, before)
    requires Holds(after) ==> RequestConsistent(s, HeldId(after))
    ensures Knows(Apply(s, effect), after)
  {
    if effect.RunCommands? {
      LogGrows(s.log, effect.execution, HeldId(before));
    }
  }

  /** The holder-level half for a process that holds another lock. */
  lemma OtherStillKnows(s: State, before: Proc, after: Proc, effect: Effect, other: Proc)
    requires Disciplined(s, before, after, effect)
    requires Holds(other) && Knows(s, other) && (Holds(before) ==> HeldId(before) != HeldId(other))
    ensures Knows(Apply(s, effect), other)
    ensures Holds(after) ==> HeldId(after) != HeldId(other)
  {
    if effect.RunCommands? {
      LogGrows(s.log, effect.execution, HeldId(other));
    }
  }

  lemma AdvanceKeepsLockInvariant(s: State, p: nat, choice: Choice)
    requires LockInvariant(s)
    ensures LockInvariant(Next(s, Advance(p, choice)))
  {
    var s', before := Next(s, Advance(p, choice)), ProcOf(s, p);
    var (after, effect) := Move(s, p, choice);
    MoveIsDisciplined(s, p, choice);
    EffectKeepsLockInvariant(s, p, after, effect);
  }

  lemma EffectKeepsLockInvariant(s: State, p: nat, after: Proc, effect: Effect)
    requires LockInvariant(s) && Disciplined(s, ProcOf(s, p), after, effect)
    ensures LockInvariant(Apply(s, effect).(procs := s.procs[p := after]))
  {
    var s1, before := Apply(s, effect), ProcOf(s, p);
    var s' := s1.(procs := s.procs[p := after]);
    assert Knows(s, before);
    forall id
      ensures RequestConsistent(s', id)
    {
      RequestStaysConsistent(s, before, after, effect, id);
      assert RequestConsistent(s1, id);
    }
    if Holds(after) {
      assert RequestConsistent(s, HeldId(after));
    }
    MoverStillKnows(s, before, after, effect);
    forall q | q in s'.procs && q != p && Holds(s'.procs[q])
      ensures Knows(s1, s'.procs[q])
      ensures Holds(after) ==> HeldId(after) != HeldId(s'.procs[q])
    {
      assert Knows(s, s.procs[q]);
      OtherStillKnows(s, before, after, effect, s.procs[q]);
    }
    forall q | q in s'.procs && Holds(s'.procs[q])
      ensures HeldId(s'.procs[q]) in s'.locks && HolderKnows(s', s'.procs[q])
    {
      assert Knows(s1, s'.procs[q]);
    }
  }

  lemma LockInvariantKept(s: State, step: Step)
    requires LockInvariant(s)
    ensures LockInvariant(Next(s, step))
  {
    if step.Advance? {
      AdvanceKeepsLockInvariant(s, step.p, step.choice);
    } else {
      BystandersKeepLockInvariant(s, Next(s, step));
    }
  }

  lemma {:induction false} LockInvariantHolds(clock: int, steps: seq<Step>)
    ensures LockInvariant(Run(clock, steps))
  {
    if steps != [] {
      LockInvariantHolds(clock, steps[..|steps| - 1]);
      LockInvariantKept(Run(clock, steps[..|steps| - 1]), steps[|steps| - 1]);
    }
  }

  // ---------------------------------------------------------------- main results

  lemma MutualExclusion(clock: int, steps: seq<Step>, p: nat, q: nat)
    requires p != q && Holds(ProcOf(Run(clock, steps), p)) && Holds(ProcOf(Run(clock, steps), q))
    ensures HeldId(ProcOf(Run(clock, steps), p)) != HeldId(ProcOf(Run(clock, steps), q))
  {
    LockInvariantHolds(clock, steps);
  }

  /** The promise of the revocation protocol for one request: at most one execution, and none
      at all when the trusted result says the operation never started. */
  ghost predicate HonouredOutcome(s: State, id: string) {
    && Executions(s.log, id) <= 1
    && (id in s.results && !s.results[id].ran ==> Executions(s.log, id) == 0)
  }

  /** The promise holds of a request after a run exactly when every execution of it ran under a
      lock created while no result file existed. */
  lemma HonouredExactlyWhenTimely(clock: int, steps: seq<Step>, id: string)
    ensures HonouredOutcome(Run(clock, steps), id) <==> AllTimely(Run(clock, steps).log, id)
  {
    var s := Run(clock, steps);
    LockInvariantHolds(clock, steps);
    assert RequestConsistent(s, id);
    TimelyCount(s.log, id);
  }

  /** A runner creates its lock although a result has appeared since it looked. */
  ghost predicate LateLock(s: State, step: Step) {
    && step.Advance? && ProcOf(s, step.p).AtLock?
    && ProcOf(s, step.p).request.id in s.results
    && ProcOf(s, step.p).request.id !in s.locks
  }

  ghost predicate NoLateLock(clock: int, steps: seq<Step>) {
    forall i :: 0 <= i < |steps| ==> !LateLock(Run(clock, steps[..i]), steps[i])
  }

  ghost predicate Timely(proc: Proc) {
    proc.Authorizing? || proc.Executing? ==> proc.timely
  }

  lemma {:induction false} NoLateLockMeansTimely(clock: int, steps: seq<Step>)
    requires NoLateLock(clock, steps)
    ensures var s := Run(clock, steps);
            && (forall p :: p in s.procs ==> Timely(s.procs[p]))
            && (forall e :: e in s.log ==> e.timely)
  {
    if steps != [] {
      var n := |steps| - 1;
      var init := steps[..n];
      forall i | 0 <= i < n
        ensures !LateLock(Run(clock, init[..i]), init[i])
      {
        assert init[..i] == steps[..i];
      }
      NoLateLockMeansTimely(clock, init);
      assert !LateLock(Run(clock, steps[..n]), steps[n]);
      TimelyStep(Run(clock, init), steps[n]);
    }
  }

  lemma TimelyMove(s: State, p: nat, choice: Choice)
    requires !LateLock(s, Advance(p, choice)) && Timely(ProcOf(s, p))
    ensures var (proc, effect) := Move(s, p, choice);
            Timely(proc) && (effect.RunCommands? ==> effect.execution.timely)
  {
  }

  lemma TimelyStep(s: State, step: Step)
    requires !LateLock(s, step)
    requires forall p :: p in s.procs ==> Timely(s.procs[p])
    requires forall e :: e in s.log ==> e.timely
    ensures forall p :: p in Next(s, step).procs ==> Timely(Next(s, step).procs[p])
    ensures forall e :: e in Next(s, step).log ==> e.timely
  {
    if step.Advance? {
      TimelyMove(s, step.p, step.choice);
    }
  }

  /** The states of the runs in which no runner locks late. */
  ghost predicate PunctuallyReached(s: State) {
    exists clock, steps :: NoLateLock(clock, steps) && Run(clock, steps) == s
  }

  /** When no runner locks late, every interleaving of runners, expiry, revocations, decisions
      and rewritten request files executes each request at most once, and a request answered
      blocked, expired or cancelled was never executed. */
  lemma RevocationIsHonoured(s: State, id: string)
    ensures PunctuallyReached(s) ==>
              && Executions(s.log, id) <= 1
              && (id in s.results && s.results[id].status in {Blocked, Lapsed, Cancelled} ==>
                    Executions(s.log, id) == 0)
              && (id in s.results && s.results[id].status.Succeeded? ==> Executions(s.log, id) == 1)
  {
    if PunctuallyReached(s) {
      var clock, steps :| NoLateLock(clock, steps) && Run(clock, steps) == s;
      NoLateLockMeansTimely(clock, steps);
      HonouredExactlyWhenTimely(clock, steps, id);
      LockInvariantHolds(clock, steps);
      assert RequestConsistent(s, id);
      TimelyCount(s.log, id);
    }
  }

  lemma RunExtends(clock: int, steps: seq<Step>, step: Step)
    ensures Run(clock, steps + [step]) == Next(Run(clock, steps), step)
  {
    assert (steps + [step])[..|steps|] == steps;
  }

  ghost predicate Reachable(s: State) {
    exists steps :: Run(0, steps) == s
  }

  lemma ReachableNext(s: State, step: Step)
    requires Reachable(s)
    ensures Reachable(Next(s, step))
  {
    var steps :| Run(0, steps) == s;
    RunExtends(0, steps, step);
  }

  const RACED: Request :=
    var payload := Payload(ServerOperations, Inspect, "primary", "{}");
    Request("a", payload, Read, Some(Fingerprint(payload)), Some(0), Some(120), Some(120), None)

  /** The one-request states of the race: runner is process 0, revocation is process 1. */
  function Race(
    results: map<string, TrustedResult>, locks: set<string>, runner: Proc, revoker: Proc, log: seq<Execution>
  ): State
  {
    State(0, map["a" := RACED], map[], results, locks, map[0 := runner, 1 := revoker], log, map[])
  }

  const FINE: Choice := Choice(true, AllCommandsOk, true)

  /** One step of the runner, or of the revocation, from a reachable state of the race. */
  lemma RunnerStep(
    results: map<string, TrustedResult>, locks: set<string>, runner: Proc, revoker: Proc, log: seq<Execution>,
    after: Proc, effect: Effect)
    requires Reachable(Race(results, locks, runner, revoker, log))
    requires Move(Race(results, locks, runner, revoker, log), 0, FINE) == (after, effect)
    ensures var s := Apply(Race(results, locks, runner, revoker, log), effect);
            Reachable(Race(s.results, s.locks, after, revoker, s.log))
  {
    var s := Race(results, locks, runner, revoker, log);
    ReachableNext(s, Advance(0, FINE));
    assert s.procs[0 := after] == map[0 := after, 1 := revoker];
  }

  lemma RevokerStep(
    results: map<string, TrustedResult>, locks: set<string>, runner: Proc, revoker: Proc, log: seq<Execution>,
    after: Proc, effect: Effect)
    requires Reachable(Race(results, locks, runner, revoker, log))
    requires Move(Race(results, locks, runner, revoker, log), 1, FINE) == (after, effect)
    ensures var s := Apply(Race(results, locks, runner, revoker, log), effect);
            Reachable(Race(s.results, s.locks, runner, after, s.log))
  {
    var s := Race(results, locks, runner, revoker, log);
    ReachableNext(s, Advance(1, FINE));
    assert s.procs[1 := after] == map[0 := runner, 1 := after];
  }

  lemma RaceStarts()
    ensures Reachable(Race(map[], {}, Fetched("a", RACED), RevokeFetched(RACED), []))
  {
    assert Run(0, []) == Init(0);
    var s1 := Next(Init(0), PutRequest("a", RACED));
    var s2 := Next(s1, StartRunner(0, "a", AllOperations));
    var s3 := Next(s2, StartRevocation(1, "a"));
    ReachableNext(Init(0), PutRequest("a", RACED));
    ReachableNext(s1, StartRunner(0, "a", AllOperations));
    ReachableNext(s2, StartRevocation(1, "a"));
    assert s3.procs == map[0 := Fetched("a", RACED), 1 := RevokeFetched(RACED)];
  }

  /** The runner looks for a result twice and finds none. */
  lemma RunnerLooks()
    ensures Reachable(Race(map[], {}, AtLock(RACED), RevokeFetched(RACED), []))
  {
    var revoker := RevokeFetched(RACED);
    RaceStarts();
    RunnerStep(map[], {}, Fetched("a", RACED), revoker, [], Handoff("a"), NoEffect);
    RunnerStep(map[], {}, Handoff("a"), revoker, [], Refetched(RACED), NoEffect);
    RunnerStep(map[], {}, Refetched(RACED), revoker, [], AtLock(RACED), NoEffect);
  }

  lemma RevocationLocks()
    ensures Reachable(Race(map[], {"a"}, AtLock(RACED), RevokeLocked("a", true), []))
  {
    var runner := AtLock(RACED);
    RunnerLooks();
    RevokerStep(map[], {}, runner, RevokeFetched(RACED), [], RevokeTested("a"), NoEffect);
    RevokerStep(map[], {}, runner, RevokeTested("a"), [], RevokeAtLock("a"), NoEffect);
    RevokerStep(map[], {}, runner, RevokeAtLock("a"), [], RevokeLocked("a", true), CreateLock("a"));
    assert {} + {"a"} == {"a"};
  }

  lemma RevocationPublishes()
    ensures Reachable(Race(map[], {"a"}, AtLock(RACED), Publishing("a", TrustedResult(Cancelled, false), true), []))
  {
    var runner, cancelled := AtLock(RACED), TrustedResult(Cancelled, false);
    RevocationLocks();
    RevokerStep(map[], {"a"}, runner, RevokeLocked("a", true), [], RevokeReloaded(RACED, true), NoEffect);
    RevokerStep(map[], {"a"}, runner, RevokeReloaded(RACED, true), [], Publishing("a", cancelled, true), NoEffect);
  }

  lemma RevocationCompletes()
    ensures Reachable(Race(map["a" := TrustedResult(Cancelled, false)], {}, AtLock(RACED), Idle, []))
  {
    var runner, cancelled := AtLock(RACED), TrustedResult(Cancelled, false);
    RevocationPublishes();
    RevokerStep(map[], {"a"}, runner, Publishing("a", cancelled, true), [], Unlocking("a"),
                CreateResult("a", cancelled));
    RevokerStep(map["a" := cancelled], {"a"}, runner, Unlocking("a"), [], Idle, RemoveLock("a"));
    assert {"a"} - {"a"} == {};
  }

  /** The runner, past its two looks, creates the lock and executes the cancelled operation. */
  lemma LateRunnerExecutes()
    ensures Reachable(Race(map["a" := TrustedResult(Cancelled, false)], {"a"},
                           Publishing("a", TrustedResult(Succeeded, true), false), Idle,
                           [Execution("a", RACED.payload, false)]))
  {
    var results := map["a" := TrustedResult(Cancelled, false)];
    RevocationCompletes();
    RunnerStep(results, {}, AtLock(RACED), Idle, [], Authorizing(RACED, false), CreateLock("a"));
    assert {} + {"a"} == {"a"};
    RunnerStep(results, {"a"}, Authorizing(RACED, false), Idle, [], Executing(RACED, false), NoEffect);
    RunnerStep(results, {"a"}, Executing(RACED, false), Idle, [],
               Publishing("a", TrustedResult(Succeeded, true), false),
               RunCommands(Execution("a", RACED.payload, false)));
  }

  /** Without that condition the promise fails: the runner looks for a result and finds none,
      the owner's revocation then locks, publishes and unlocks, and the runner still creates
      its lock and executes. The request ends as cancelled and executed. */
  lemma CancelledYetExecuted()
    ensures exists steps ::
              && "a" in Run(0, steps).results && Run(0, steps).results["a"].status == Cancelled
              && Run(0, steps).log == [Execution("a", RACED.payload, false)]
              && !HonouredOutcome(Run(0, steps), "a")
  {
    var results := map["a" := TrustedResult(Cancelled, false)];
    var log := [Execution("a", RACED.payload, false)];
    LateRunnerExecutes();
    var final := Race(results, {"a"}, Publishing("a", TrustedResult(Succeeded, true), false), Idle, log);
    TimelyCount(log, "a");
    var steps :| Run(0, steps) == final;
    assert !HonouredOutcome(Run(0, steps), "a");
  }

  lemma ResultsStayInStep(s: State, step: Step, id: string)
    requires id in s.results
    ensures id in Next(s, step).results && Next(s, step).results[id] == s.results[id]
  {
    if step.Advance? {
      MoveIsDisciplined(s, step.p, step.choice);
    } else if step.OwnerDecides? {
      DecisionRule(s, step.id, step.action, step.actor);
    }
  }

  /** A trusted result never changes once written. */
  lemma {:induction false} ResultsAreFinal(clock: int, steps: seq<Step>, more: seq<Step>, id: string)
    requires id in Run(clock, steps).results
    ensures id in Run(clock, steps + more).results
    ensures Run(clock, steps + more).results[id] == Run(clock, steps).results[id]
  {
    if more == [] {
      assert steps + more == steps;
    } else {
      var init, last := more[..|more| - 1], more[|more| - 1];
      ResultsAreFinal(clock, steps, init, id);
      assert steps + more == (steps + init) + [last];
      RunExtends(clock, steps + init, last);
      ResultsStayInStep(Run(clock, steps + init), last, id);
    }
  }

  // ---------------------------------------------------------------- payload binding

  ghost predicate Covered(s: State, id: string, payload: Payload) {
    OperationRisk(payload) == Some(Read) || (id in s.approved && s.approved[id] == payload)
  }

  ghost predicate ApprovalInvariant(s: State) {
    && (forall id :: id in s.decisions && s.decisions[id].verdict.Approved? ==>
          id in s.approved && s.decisions[id].fingerprint == Fingerprint(s.approved[id]))
    && (forall id :: id in s.approved ==> id in s.decisions && s.decisions[id].verdict.Approved?)
    && (forall p :: p in s.procs && s.procs[p].Executing? ==>
          Covered(s, s.procs[p].request.id, s.procs[p].request.payload))
    && (forall e :: e in s.log ==> Covered(s, e.id, e.payload))
  }

  lemma ApprovalInvariantKept(s: State, step: Step)
    requires ApprovalInvariant(s)
    ensures ApprovalInvariant(Next(s, step))
  {
    if step.OwnerDecides? {
      DecisionKeepsCoverage(s, step.id, step.action, step.actor);
    } else if step.Advance? {
      var (after, effect) := Move(s, step.p, step.choice);
      MoveIsCovered(s, step.p, step.choice);
      EffectKeepsCoverage(s, step.p, after, effect);
    } else {
      CoverageFrame(s, Next(s, step));
    }
  }

  lemma CoverageFrame(s: State, s': State)
    requires ApprovalInvariant(s)
    requires s'.log == s.log && s'.decisions == s.decisions && s'.approved == s.approved
    requires forall p :: p in s'.procs && s'.procs[p].Executing? ==> p in s.procs && s'.procs[p] == s.procs[p]
    ensures ApprovalInvariant(s')
  {
  }

  /** A decision write that is not the repetition of an earlier approval: a new approval carries
      the fingerprint of the content in the request file right now. */
  ghost predicate DecisionWritten(s: State, s': State, id: string) {
    && id in s.requests && id in s'.decisions
    && s'.decisions == s.decisions[id := s'.decisions[id]]
    && !(id in s.decisions && s.decisions[id].verdict.Approved?)
    && if s'.decisions[id].verdict.Approved?
       then s'.decisions[id].fingerprint == Fingerprint(s.requests[id].payload)
            && s'.approved == s.approved[id := s.requests[id].payload]
       else s'.approved == s.approved
  }

  lemma DecisionRule(s: State, id: string, action: Action, actor: string)
    ensures var s' := Decided(s, id, action, actor);
            && s' == s.(decisions := s'.decisions, approved := s'.approved)
            && (s' == s || DecisionWritten(s, s', id))
  {
    if id in s.decisions {
      assert s.decisions[id := s.decisions[id]] == s.decisions;
    }
  }

  lemma DecisionKeepsCoverage(s: State, id: string, action: Action, actor: string)
    requires ApprovalInvariant(s)
    ensures ApprovalInvariant(Decided(s, id, action, actor))
  {
    DecisionRule(s, id, action, actor);
    if Decided(s, id, action, actor) != s {
      NewDecisionKeepsCoverage(s, Decided(s, id, action, actor), id);
    }
  }

  lemma NewDecisionKeepsCoverage(s: State, s': State, id: string)
    requires ApprovalInvariant(s) && DecisionWritten(s, s', id)
    requires s'.log == s.log && s'.procs == s.procs
    ensures ApprovalInvariant(s')
  {
    forall e | e in s'.log
      ensures Covered(s', e.id, e.payload)
    {
      assert Covered(s, e.id, e.payload);
    }
  }

  lemma MoveIsCovered(s: State, p: nat, choice: Choice)
    requires ApprovalInvariant(s)
    ensures var (after, effect) := Move(s, p, choice);
            && (after.Executing? ==> Covered(s, after.request.id, after.request.payload))
            && (effect.RunCommands? ==> Covered(s, effect.execution.id, effect.execution.payload))
  {
  }

  lemma RunningKeepsCoverage(s: State, execution: Execution)
    requires ApprovalInvariant(s) && Covered(s, execution.id, execution.payload)
    ensures ApprovalInvariant(s.(log := s.log + [execution]))
  {
    var s' := s.(log := s.log + [execution]);
    forall e | e in s'.log
      ensures Covered(s', e.id, e.payload)
    {
      assert e in s.log || e == execution;
    }
  }

  lemma SettingProcKeepsCoverage(s: State, p: nat, after: Proc)
    requires ApprovalInvariant(s)
    requires after.Executing? ==> Covered(s, after.request.id, after.request.payload)
    ensures ApprovalInvariant(s.(procs := s.procs[p := after]))
  {
  }

  lemma EffectKeepsCoverage(s: State, p: nat, after: Proc, effect: Effect)
    requires ApprovalInvariant(s)
    requires after.Executing? ==> Covered(s, after.request.id, after.request.payload)
    requires effect.RunCommands? ==> Covered(s, effect.execution.id, effect.execution.payload)
    ensures ApprovalInvariant(Apply(s, effect).(procs := s.procs[p := after]))
  {
    if effect.RunCommands? {
      RunningKeepsCoverage(s, effect.execution);
    } else {
      CoverageFrame(s, Apply(s, effect));
    }
    SettingProcKeepsCoverage(Apply(s, effect), p, after);
  }

  lemma {:induction false} ApprovalInvariantHolds(clock: int, steps: seq<Step>)
    ensures ApprovalInvariant(Run(clock, steps))
  {
    if steps != [] {
      ApprovalInvariantHolds(clock, steps[..|steps| - 1]);
      ApprovalInvariantKept(Run(clock, steps[..|steps| - 1]), steps[|steps| - 1]);
    }
  }

  /** The step by which the owner's decision on a request becomes an approval. */
  ghost predicate Approves(s: State, step: Step, id: string) {
    && step.OwnerDecides? && step.id == id && id in s.requests
    && !(id in s.decisions && s.decisions[id].verdict.Approved?)
    && id in Next(s, step).decisions && Next(s, step).decisions[id].verdict.Approved?
  }

  ghost predicate ApprovedAt(clock: int, steps: seq<Step>, id: string, payload: Payload, i: int) {
    && 0 <= i < |steps|
    && Approves(Run(clock, steps[..i]), steps[i], id)
    && Run(clock, steps[..i]).requests[id].payload == payload
  }

  lemma ApprovalAppears(s: State, step: Step, id: string)
    requires id in Next(s, step).approved
    requires !(id in s.approved && s.approved[id] == Next(s, step).approved[id])
    ensures Approves(s, step, id) && s.requests[id].payload == Next(s, step).approved[id]
  {
    if step.Advance? {
      MoveIsDisciplined(s, step.p, step.choice);
    } else if step.OwnerDecides? {
      DecisionRule(s, step.id, step.action, step.actor);
    }
  }

  lemma {:induction false} ApprovalWasGiven(clock: int, steps: seq<Step>, id: string)
    requires id in Run(clock, steps).approved
    ensures exists i :: ApprovedAt(clock, steps, id, Run(clock, steps).approved[id], i)
  {
    var n := |steps| - 1;
    var init := steps[..n];
    var before := Run(clock, init);
    var payload := Run(clock, steps).approved[id];
    if id in before.approved && before.approved[id] == payload {
      ApprovalWasGiven(clock, init, id);
      var i :| ApprovedAt(clock, init, id, payload, i);
      assert init[..i] == steps[..i];
      assert ApprovedAt(clock, steps, id, payload, i);
    } else {
      ApprovalAppears(before, steps[n], id);
      assert ApprovedAt(clock, steps, id, payload, n);
    }
  }

  /** Every executed change carries exactly the payload its request file held at the moment an
      owner's approval was written, however the file was rewritten before or after. */
  lemma ExecutedPayloadWasApproved(clock: int, steps: seq<Step>, k: int)
    requires 0 <= k < |Run(clock, steps).log|
    requires OperationRisk(Run(clock, steps).log[k].payload) != Some(Read)
    ensures exists i :: ApprovedAt(clock, steps, Run(clock, steps).log[k].id, Run(clock, steps).log[k].payload, i)
  {
    var e := Run(clock, steps).log[k];
    ApprovalInvariantHolds(clock, steps);
    assert Covered(Run(clock, steps), e.id, e.payload);
    ApprovalWasGiven(clock, steps, e.id);
  }
}
