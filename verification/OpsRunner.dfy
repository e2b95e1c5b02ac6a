/** One runner pass and one revocation, each run without interruption: what they do to the shared
    files, that they are runs of the step machine, and what holds when calls come one at a time. */
module OpsPasses {
  import opened Common
  import opened Operations
  import opened Machine = OpsProtocol

  // ---------------------------------------------------------------- what one call does

  function Locked(s: State, id: string): State {
    s.(locks := s.locks + {id})
  }

  /** The lock is gone again unless the unlink failed. */
  function Released(s: State, id: string, unlinkWorks: bool): State {
    if unlinkWorks then s.(locks := s.locks - {id}) else s
  }

  function Published(s: State, id: string, result: TrustedResult): State {
    if id in s.results then s else s.(results := s.results[id := result])
  }

  function Ran(s: State, r: Request): State {
    s.(log := s.log + [Execution(r.id, r.payload, true)])
  }

  function OutcomeResult(outcome: ExecuteOutcome): TrustedResult {
    TrustedResult(if outcome.AllCommandsOk? then Succeeded else Failed, true)
  }

  /** What the base runner does with a request while it holds the lock. */
  function Processed(s: State, r: Request, choice: Choice): State {
    if !Validates(r, choice.policyAllows) then Published(s, r.id, TrustedResult(Failed, false))
    else match AuthorizationState(s, r)
         case MustWait => s
         case MustBlock => Published(s, r.id, TrustedResult(Blocked, false))
         case MayRun => Published(Ran(s, r), r.id, OutcomeResult(choice.outcome))
  }

  function UnderLock(s: State, r: Request, choice: Choice): State {
    if RequestExpired(r, s.clock) then Published(s, r.id, TrustedResult(Lapsed, false)) else Processed(s, r, choice)
  }

  predicate Takes(s: State, path: string, mode: RunnerMode) {
    path in s.requests && RunnerAccepts(mode, s.requests[path])
    && s.requests[path].id !in s.results && s.requests[path].id !in s.locks
  }

  /** One whole pass over a request file. */
  function Pass(s: State, path: string, mode: RunnerMode, choice: Choice): State {
    if !Takes(s, path, mode) then s
    else
      var r := s.requests[path];
      Released(UnderLock(Locked(s, r.id), r, choice), r.id, choice.unlinkWorks)
  }

  predicate Cancellable(s: State, id: string) {
    Revocable(s, id) && id !in s.results && !RequestExpired(s.requests[id], s.clock)
    && !(id in s.decisions && s.decisions[id].verdict.Denied?) && id !in s.locks
  }

  /** One whole revocation. */
  function Revoked(s: State, id: string, choice: Choice): State {
    if !Cancellable(s, id) then s
    else Released(Published(Locked(s, id), id, TrustedResult(Cancelled, false)), id, choice.unlinkWorks)
  }

  // ---------------------------------------------------------------- they are runs of the machine

  /** `n` consecutive steps of process `p` and of nobody else. */
  function Solo(s: State, p: nat, choice: Choice, n: nat): State
    decreases n
  {
    if n == 0 then s else Solo(Machine.Next(s, Advance(p, choice)), p, choice, n - 1)
  }

  /** The state with process `p` at a program point. */
  function At(s: State, p: nat, proc: Proc): State {
    s.(procs := s.procs[p := proc])
  }

  /** One step from a known program point. */
  lemma SoloStep(s: State, p: nat, choice: Choice, n: nat, proc: Proc, after: Proc, effect: Effect)
    requires n > 0 && Move(At(s, p, proc), p, choice) == (after, effect)
    ensures Solo(At(s, p, proc), p, choice, n) == Solo(At(Apply(s, effect), p, after), p, choice, n - 1)
  {
    var here := At(s, p, proc);
    assert Apply(here, effect).(procs := here.procs[p := after]) == At(Apply(s, effect), p, after) by {
      ApplyKeepsProcs(s, here, effect);
      assert s.procs[p := proc][p := after] == s.procs[p := after];
    }
  }

  lemma ApplyKeepsProcs(s: State, here: State, effect: Effect)
    requires here == s.(procs := here.procs)
    ensures Apply(here, effect) == Apply(s, effect).(procs := here.procs)
  {
  }

  /** The last two steps of everything that holds a lock with a result to publish. */
  lemma PublishAndRelease(s: State, p: nat, choice: Choice, id: string, result: TrustedResult, timely: bool)
    ensures Solo(At(s, p, Publishing(id, result, timely)), p, choice, 2)
            == At(Released(Published(s, id, result), id, choice.unlinkWorks), p, Idle)
  {
    var published := if id in s.results then NoEffect else CreateResult(id, result);
    SoloStep(s, p, choice, 2, Publishing(id, result, timely), Unlocking(id), published);
    ReleaseOnly(Apply(s, published), p, choice, id);
  }

  lemma ReleaseOnly(s: State, p: nat, choice: Choice, id: string)
    ensures Solo(At(s, p, Unlocking(id)), p, choice, 1) == At(Released(s, id, choice.unlinkWorks), p, Idle)
  {
    SoloStep(s, p, choice, 1, Unlocking(id), Idle, if choice.unlinkWorks then RemoveLock(id) else NoEffect);
  }

  function StepsFrom(s: State, r: Request, choice: Choice): nat {
    if !Validates(r, choice.policyAllows) then 3
    else match AuthorizationState(s, r)
         case MustWait => 2
         case MustBlock => 3
         case MayRun => 4
  }

  lemma AuthorizedPart(s: State, p: nat, choice: Choice, r: Request, timely: bool)
    requires r.id !in s.results && timely
    ensures Solo(At(s, p, Authorizing(r, timely)), p, choice, StepsFrom(s, r, choice))
            == At(Released(Processed(s, r, choice), r.id, choice.unlinkWorks), p, Idle)
  {
    var n := StepsFrom(s, r, choice);
    var here := Authorizing(r, timely);
    assert AuthorizationState(At(s, p, here), r) == AuthorizationState(s, r);
    if !Validates(r, choice.policyAllows) {
      var result := TrustedResult(Failed, false);
      SoloStep(s, p, choice, n, here, Publishing(r.id, result, timely), NoEffect);
      PublishAndRelease(s, p, choice, r.id, result, timely);
    } else {
      match AuthorizationState(s, r)
      case MustWait =>
        SoloStep(s, p, choice, n, here, Unlocking(r.id), NoEffect);
        ReleaseOnly(s, p, choice, r.id);
      case MustBlock =>
        var result := TrustedResult(Blocked, false);
        SoloStep(s, p, choice, n, here, Publishing(r.id, result, timely), NoEffect);
        PublishAndRelease(s, p, choice, r.id, result, timely);
      case MayRun =>
        SoloStep(s, p, choice, n, here, Executing(r, timely), NoEffect);
        ExecutedPart(s, p, choice, r);
    }
  }

  lemma ExecutedPart(s: State, p: nat, choice: Choice, r: Request)
    requires r.id !in s.results
    ensures Solo(At(s, p, Executing(r, true)), p, choice, 3)
            == At(Released(Published(Ran(s, r), r.id, OutcomeResult(choice.outcome)), r.id, choice.unlinkWorks),
                  p, Idle)
  {
    var result := OutcomeResult(choice.outcome);
    SoloStep(s, p, choice, 3, Executing(r, true), Publishing(r.id, result, true),
             RunCommands(Execution(r.id, r.payload, true)));
    PublishAndRelease(Ran(s, r), p, choice, r.id, result, true);
  }

  /** The number of steps of a pass after the request has been read. */
  function PassLength(s: State, path: string, choice: Choice): nat
    requires path in s.requests
  {
    var r := s.requests[path];
    if r.id in s.results then 1
    else if RequestExpired(r, s.clock) then (if r.id in s.locks then 2 else 5)
    else if r.id in s.locks then 4
    else 4 + StepsFrom(Locked(s, r.id), r, choice)
  }

  lemma ExpiredPart(s: State, p: nat, choice: Choice, id: string)
    requires id !in s.results && id !in s.locks
    ensures Solo(At(s, p, ExpiryAtLock(id)), p, choice, 4)
            == At(Released(Published(Locked(s, id), id, TrustedResult(Lapsed, false)), id, choice.unlinkWorks), p, Idle)
  {
    SoloStep(s, p, choice, 4, ExpiryAtLock(id), ExpiryLocked(id, true), CreateLock(id));
    ExpiredUnderLock(Locked(s, id), p, choice, id);
  }

  lemma ExpiredUnderLock(s: State, p: nat, choice: Choice, id: string)
    requires id !in s.results
    ensures Solo(At(s, p, ExpiryLocked(id, true)), p, choice, 3)
            == At(Released(Published(s, id, TrustedResult(Lapsed, false)), id, choice.unlinkWorks), p, Idle)
  {
    SoloStep(s, p, choice, 3, ExpiryLocked(id, true), Publishing(id, TrustedResult(Lapsed, false), true), NoEffect);
    PublishAndRelease(s, p, choice, id, TrustedResult(Lapsed, false), true);
  }

  lemma HandedOver(s: State, p: nat, choice: Choice, path: string, n: nat)
    requires path in s.requests && s.requests[path].id !in s.results && n >= 2
    ensures Solo(At(s, p, Handoff(path)), p, choice, n) == Solo(At(s, p, AtLock(s.requests[path])), p, choice, n - 2)
  {
    SoloStep(s, p, choice, n, Handoff(path), Refetched(s.requests[path]), NoEffect);
    SoloStep(s, p, choice, n - 1, Refetched(s.requests[path]), AtLock(s.requests[path]), NoEffect);
  }

  lemma LockedPart(s: State, p: nat, choice: Choice, r: Request)
    requires r.id !in s.results && r.id !in s.locks
    ensures Solo(At(s, p, AtLock(r)), p, choice, 1 + StepsFrom(Locked(s, r.id), r, choice))
            == At(Released(Processed(Locked(s, r.id), r, choice), r.id, choice.unlinkWorks), p, Idle)
  {
    SoloStep(s, p, choice, 1 + StepsFrom(Locked(s, r.id), r, choice), AtLock(r), Authorizing(r, true),
             CreateLock(r.id));
    AuthorizedPart(Locked(s, r.id), p, choice, r, true);
  }

  /** An undisturbed pass is a run of the machine: starting the runner on a request it accepts and
      letting it step until it is idle again has exactly the effect of `Pass`. */
  lemma PassIsARun(s: State, p: nat, path: string, mode: RunnerMode, choice: Choice)
    requires ProcOf(s, p).Idle? && path in s.requests && RunnerAccepts(mode, s.requests[path])
    ensures Solo(Machine.Next(s, StartRunner(p, path, mode)), p, choice, PassLength(s, path, choice))
            == At(Pass(s, path, mode, choice), p, Idle)
  {
    var r := s.requests[path];
    assert Machine.Next(s, StartRunner(p, path, mode)) == At(s, p, Fetched(path, r));
    if r.id in s.results {
      SoloStep(s, p, choice, 1, Fetched(path, r), Idle, NoEffect);
    } else if RequestExpired(r, s.clock) {
      ExpiredPassRuns(s, p, path, mode, choice);
    } else {
      LivePassRuns(s, p, path, mode, choice);
    }
  }

  lemma ExpirySeen(s: State, p: nat, choice: Choice, path: string, r: Request, n: nat)
    requires r.id !in s.results && RequestExpired(r, s.clock) && n > 0
    ensures Solo(At(s, p, Fetched(path, r)), p, choice, n) == Solo(At(s, p, ExpiryAtLock(r.id)), p, choice, n - 1)
  {
    SoloStep(s, p, choice, n, Fetched(path, r), ExpiryAtLock(r.id), NoEffect);
  }

  lemma ExpiredPassRuns(s: State, p: nat, path: string, mode: RunnerMode, choice: Choice)
    requires path in s.requests && RunnerAccepts(mode, s.requests[path])
    requires s.requests[path].id !in s.results && RequestExpired(s.requests[path], s.clock)
    ensures Solo(At(s, p, Fetched(path, s.requests[path])), p, choice, PassLength(s, path, choice))
            == At(Pass(s, path, mode, choice), p, Idle)
  {
    var r, n := s.requests[path], PassLength(s, path, choice);
    ExpirySeen(s, p, choice, path, r, n);
    if r.id in s.locks {
      SoloStep(s, p, choice, n - 1, ExpiryAtLock(r.id), Idle, NoEffect);
    } else {
      ExpiredPart(s, p, choice, r.id);
    }
  }

  lemma LivePassRuns(s: State, p: nat, path: string, mode: RunnerMode, choice: Choice)
    requires path in s.requests && RunnerAccepts(mode, s.requests[path])
    requires s.requests[path].id !in s.results && !RequestExpired(s.requests[path], s.clock)
    ensures Solo(At(s, p, Fetched(path, s.requests[path])), p, choice, PassLength(s, path, choice))
            == At(Pass(s, path, mode, choice), p, Idle)
  {
    var r, n := s.requests[path], PassLength(s, path, choice);
    SoloStep(s, p, choice, n, Fetched(path, r), Handoff(path), NoEffect);
    HandedOver(s, p, choice, path, n - 1);
    if r.id in s.locks {
      SoloStep(s, p, choice, 1, AtLock(r), Idle, NoEffect);
    } else {
      LockedPart(s, p, choice, r);
    }
  }

  function RevokeLength(s: State, id: string): nat {
    if !Revocable(s, id) then 0
    else if id in s.results || RequestExpired(s.requests[id], s.clock) then 1
    else if id in s.decisions && s.decisions[id].verdict.Denied? then 2
    else if id in s.locks then 3
    else 7
  }

  lemma RevokingReads(s: State, p: nat, choice: Choice, r: Request)
    requires ProcOf(s, p) == RevokeLocked(r.id, true)
    requires r.id in s.requests && s.requests[r.id] == r && PayloadIntact(r)
    ensures Move(s, p, choice) == (RevokeReloaded(r, true), NoEffect)
  {
    assert Revocable(s, r.id);
  }

  lemma RevokingUnderLock(s: State, p: nat, choice: Choice, r: Request)
    requires r.id in s.requests && s.requests[r.id] == r && PayloadIntact(r)
    ensures Solo(At(s, p, RevokeLocked(r.id, true)), p, choice, 4)
            == Solo(At(s, p, RevokeReloaded(r, true)), p, choice, 3)
  {
    RevokingReads(At(s, p, RevokeLocked(r.id, true)), p, choice, r);
    SoloStep(s, p, choice, 4, RevokeLocked(r.id, true), RevokeReloaded(r, true), NoEffect);
  }

  lemma RevokingReloaded(s: State, p: nat, choice: Choice, r: Request)
    requires r.id !in s.results && !RequestExpired(r, s.clock)
    ensures Solo(At(s, p, RevokeReloaded(r, true)), p, choice, 3)
            == At(Released(Published(s, r.id, TrustedResult(Cancelled, false)), r.id, choice.unlinkWorks), p, Idle)
  {
    var result := TrustedResult(Cancelled, false);
    SoloStep(s, p, choice, 3, RevokeReloaded(r, true), Publishing(r.id, result, true), NoEffect);
    PublishAndRelease(s, p, choice, r.id, result, true);
  }

  lemma RevokingTakesLock(s: State, p: nat, choice: Choice, id: string)
    requires id !in s.results && id !in s.locks
    ensures Solo(At(s, p, RevokeAtLock(id)), p, choice, 5)
            == Solo(At(Locked(s, id), p, RevokeLocked(id, true)), p, choice, 4)
  {
    SoloStep(s, p, choice, 5, RevokeAtLock(id), RevokeLocked(id, true), CreateLock(id));
  }

  lemma RevokingPart(s: State, p: nat, choice: Choice, id: string)
    requires Cancellable(s, id)
    ensures Solo(At(s, p, RevokeAtLock(id)), p, choice, 5) == At(Revoked(s, id, choice), p, Idle)
  {
    var r := s.requests[id];
    RevokingTakesLock(s, p, choice, id);
    RevokingUnderLock(Locked(s, id), p, choice, r);
    RevokingReloaded(Locked(s, id), p, choice, r);
  }

  /** An undisturbed revocation is a run of the machine. */
  lemma RevocationIsARun(s: State, p: nat, id: string, choice: Choice)
    requires ProcOf(s, p).Idle? && Revocable(s, id)
    ensures Solo(Machine.Next(s, StartRevocation(p, id)), p, choice, RevokeLength(s, id))
            == At(Revoked(s, id, choice), p, Idle)
  {
    var r, n := s.requests[id], RevokeLength(s, id);
    assert Machine.Next(s, StartRevocation(p, id)) == At(s, p, RevokeFetched(r));
    if id in s.results || RequestExpired(r, s.clock) {
      SoloStep(s, p, choice, n, RevokeFetched(r), Idle, NoEffect);
    } else {
      SoloStep(s, p, choice, n, RevokeFetched(r), RevokeTested(id), NoEffect);
      RevocationAfterTests(s, p, id, choice);
    }
  }

  lemma RevocationAfterTests(s: State, p: nat, id: string, choice: Choice)
    requires Revocable(s, id) && id !in s.results && !RequestExpired(s.requests[id], s.clock)
    ensures Solo(At(s, p, RevokeTested(id)), p, choice, RevokeLength(s, id) - 1) == At(Revoked(s, id, choice), p, Idle)
  {
    var n := RevokeLength(s, id) - 1;
    if id in s.decisions && s.decisions[id].verdict.Denied? {
      SoloStep(s, p, choice, n, RevokeTested(id), Idle, NoEffect);
    } else {
      SoloStep(s, p, choice, n, RevokeTested(id), RevokeAtLock(id), NoEffect);
      if id in s.locks {
        SoloStep(s, p, choice, n - 1, RevokeAtLock(id), Idle, NoEffect);
      } else {
        RevokingPart(s, p, choice, id);
      }
    }
  }

  // ---------------------------------------------------------------- calls one at a time

  datatype Call =
    | RunnerPass(path: string, mode: RunnerMode, choice: Choice)
    | Revocation(id: string, choice: Choice)
    | Elsewhere(step: Machine.Step)

  /** Other steps of the world: the clock, request files and owner decisions, but no process. */
  predicate Outside(step: Machine.Step) {
    step.Tick? || step.PutRequest? || step.DropRequest? || step.OwnerDecides?
  }

  function Called(s: State, call: Call): State {
    match call
    case RunnerPass(path, mode, choice) => Pass(s, path, mode, choice)
    case Revocation(id, choice) => Revoked(s, id, choice)
    case Elsewhere(step) => if Outside(step) then Machine.Next(s, step) else s
  }

  function CalledAll(clock: int, calls: seq<Call>): State {
    if calls == [] then Init(clock) else Called(CalledAll(clock, calls[..|calls| - 1]), calls[|calls| - 1])
  }

  /** Executions and trusted results balance. */
  ghost predicate Balanced(s: State) {
    forall id :: Executions(s.log, id) == if id in s.results && s.results[id].ran then 1 else 0
  }

  lemma PublishingKeepsBalance(s: State, id: string, result: TrustedResult)
    requires Balanced(s) && !result.ran
    ensures Balanced(Published(s, id, result))
  {
  }

  lemma RunningKeepsBalance(s: State, r: Request, result: TrustedResult)
    requires Balanced(s) && r.id !in s.results && result.ran
    ensures Balanced(Published(Ran(s, r), r.id, result))
  {
    forall id
      ensures Executions(Ran(s, r).log, id) == Executions(s.log, id) + if id == r.id then 1 else 0
    {
      LogGrows(s.log, Execution(r.id, r.payload, true), id);
    }
  }

  lemma ProcessingKeepsBalance(s: State, r: Request, choice: Choice)
    requires Balanced(s) && r.id !in s.results
    ensures Balanced(UnderLock(s, r, choice))
  {
    if RequestExpired(r, s.clock) {
      PublishingKeepsBalance(s, r.id, TrustedResult(Lapsed, false));
    } else if !Validates(r, choice.policyAllows) {
      PublishingKeepsBalance(s, r.id, TrustedResult(Failed, false));
    } else if AuthorizationState(s, r).MustBlock? {
      PublishingKeepsBalance(s, r.id, TrustedResult(Blocked, false));
    } else if AuthorizationState(s, r).MayRun? {
      RunningKeepsBalance(s, r, OutcomeResult(choice.outcome));
    }
  }

  lemma LocksKeepBalance(s: State, locks: set<string>)
    requires Balanced(s)
    ensures Balanced(s.(locks := locks))
  {
  }

  lemma PassKeepsBalance(s: State, path: string, mode: RunnerMode, choice: Choice)
    requires Balanced(s)
    ensures Balanced(Pass(s, path, mode, choice))
  {
    if Takes(s, path, mode) {
      var r := s.requests[path];
      LocksKeepBalance(s, s.locks + {r.id});
      ProcessingKeepsBalance(Locked(s, r.id), r, choice);
      var processed := UnderLock(Locked(s, r.id), r, choice);
      LocksKeepBalance(processed, processed.locks - {r.id});
    }
  }

  lemma OutsideKeepsFiles(s: State, step: Machine.Step)
    requires Outside(step)
    ensures Machine.Next(s, step).log == s.log && Machine.Next(s, step).results == s.results
  {
  }

  /** Called one at a time, runner passes and revocations keep executions and results in balance:
      a request was executed exactly once if its trusted result says it ran, and never otherwise.
      Cancelled, expired and blocked then do mean never executed, whatever the owner decides,
      whoever rewrites the request files, and whether or not locks can be removed. */
  lemma {:induction false} OneCallAtATimeBalances(clock: int, calls: seq<Call>, id: string)
    ensures var s := CalledAll(clock, calls);
            Executions(s.log, id) == if id in s.results && s.results[id].ran then 1 else 0
  {
    CallsBalance(clock, calls);
  }

  lemma {:induction false} CallsBalance(clock: int, calls: seq<Call>)
    ensures Balanced(CalledAll(clock, calls))
  {
    if calls != [] {
      var before := CalledAll(clock, calls[..|calls| - 1]);
      CallsBalance(clock, calls[..|calls| - 1]);
      match calls[|calls| - 1]
      case RunnerPass(path, mode, choice) => PassKeepsBalance(before, path, mode, choice);
      case Revocation(id, choice) =>
        PublishingKeepsBalance(Locked(before, id), id, TrustedResult(Cancelled, false));
      case Elsewhere(step) =>
        if Outside(step) {
          OutsideKeepsFiles(before, step);
        }
    }
  }

  // ---------------------------------------------------------------- the runner's own code

  /** A revocation cancels, finds the request cancelled already and succeeds again, or refuses. */
  datatype RevokeStatus = CancelledNow | AlreadyCancelled | Refused

  datatype PassStatus = Missing | Skipped | Done | AlreadyLocked | Waiting | Closed(result: TrustedResult)

  /** The runner and the revocation command over the shared directories. */
  class OpsRunner {
    var clock: int
    var requests: map<string, Request>
    var decisions: map<string, OpDecision>
    var results: map<string, TrustedResult>
    var locks: set<string>
    var log: seq<Execution>
    ghost var procs: map<nat, Proc>
    ghost var approved: map<string, Payload>

    ghost function Snapshot(): State
      reads this
    {
      State(clock, requests, decisions, results, locks, procs, log, approved)
    }

    constructor (clock: int)
      ensures Snapshot() == Init(clock)
    {
      this.clock, requests, decisions, results, locks, log := clock, map[], map[], map[], {}, [];
      procs, approved := map[], map[];
    }

    /** Exclusive creation of the lock file. */
    method TryLock(id: string) returns (created: bool)
      modifies this`locks
      ensures created <==> id !in old(locks)
      ensures Snapshot() == if created then Locked(old(Snapshot()), id) else old(Snapshot())
    {
      created := id !in locks;
      if created {
        locks := locks + {id};
      }
    }

    method Unlock(id: string, unlinkWorks: bool)
      modifies this`locks
      ensures Snapshot() == Released(old(Snapshot()), id, unlinkWorks)
    {
      if unlinkWorks {
        locks := locks - {id};
      }
    }

    /** Exclusive creation of the result file; an existing result stays. */
    method Publish(id: string, result: TrustedResult)
      modifies this`results
      ensures Snapshot() == Published(old(Snapshot()), id, result)
    {
      if id !in results {
        results := results[id := result];
      }
    }

    method Authorize(r: Request) returns (a: Authorization)
      ensures a == AuthorizationState(Snapshot(), r)
    {
      if OperationRisk(r.payload) == Some(Read) {
        return MayRun;
      }
      if r.id !in decisions {
        return MustWait;
      }
      var d := decisions[r.id];
      if d.requestId != r.id || !d.verdict.Approved? || DecisionLapsed(d, clock) {
        return MustBlock;
      }
      if d.fingerprint != Fingerprint(r.payload) {
        return MustBlock;
      }
      a := MayRun;
    }

    method Execute(r: Request, choice: Choice) returns (result: TrustedResult)
      modifies this`log
      ensures Snapshot() == Ran(old(Snapshot()), r) && result == OutcomeResult(choice.outcome)
    {
      log := log + [Execution(r.id, r.payload, true)];
      result := TrustedResult(if choice.outcome.AllCommandsOk? then Succeeded else Failed, true);
    }

    /** The body between lock and unlock in the base runner. */
    method ProcessLocked(r: Request, choice: Choice) returns (status: PassStatus)
      requires r.id !in results
      modifies this`results, this`log
      ensures Snapshot() == Processed(old(Snapshot()), r, choice)
      ensures status.Closed? ==> results == old(results)[r.id := status.result]
      ensures !status.Closed? ==> results == old(results) && log == old(log)
    {
      if !Validates(r, choice.policyAllows) {
        Publish(r.id, TrustedResult(Failed, false));
        return Closed(TrustedResult(Failed, false));
      }
      var a := Authorize(r);
      if a.MustWait? {
        return Waiting;
      }
      if a.MustBlock? {
        Publish(r.id, TrustedResult(Blocked, false));
        return Closed(TrustedResult(Blocked, false));
      }
      var result := Execute(r, choice);
      Publish(r.id, result);
      status := Closed(result);
    }

    /** The lifecycle entry and, for a request that has not expired, the base runner. */
    method ProcessRequest(path: string, mode: RunnerMode, choice: Choice) returns (status: PassStatus)
      modifies this`results, this`locks, this`log
      ensures Snapshot() == Pass(old(Snapshot()), path, mode, choice)
      ensures status.Closed? ==> path in requests && results == old(results)[requests[path].id := status.result]
      ensures !status.Closed? ==> results == old(results) && log == old(log)
    {
      if path !in requests {
        return Missing;
      }
      var r := requests[path];
      if !RunnerAccepts(mode, r) {
        return Skipped;
      }
      if r.id in results {
        return Done;
      }
      var created := TryLock(r.id);
      if !created {
        return AlreadyLocked;
      }
      if RequestExpired(r, clock) {
        Publish(r.id, TrustedResult(Lapsed, false));
        status := Closed(TrustedResult(Lapsed, false));
      } else {
        status := ProcessLocked(r, choice);
      }
      Unlock(r.id, choice.unlinkWorks);
    }

    /** One sweep over the queue, in file order. */
    method RunOnce(paths: seq<string>, mode: RunnerMode, choices: seq<Choice>)
      requires |choices| == |paths|
      modifies this`results, this`locks, this`log
      ensures Snapshot() == Swept(old(Snapshot()), paths, mode, choices)
    {
      for i := 0 to |paths|
        invariant Snapshot() == Swept(old(Snapshot()), paths[..i], mode, choices[..i])
      {
        assert paths[..i + 1][..i] == paths[..i] && choices[..i + 1][..i] == choices[..i];
        var status := ProcessRequest(paths[i], mode, choices[i]);
      }
      assert paths[..|paths|] == paths && choices[..|choices|] == choices;
    }

    method RevokeOperation(id: string, choice: Choice) returns (status: RevokeStatus)
      modifies this`results, this`locks
      ensures Snapshot() == Revoked(old(Snapshot()), id, choice)
      ensures status.CancelledNow? <==> Cancellable(old(Snapshot()), id)
      ensures status.AlreadyCancelled? <==>
                Revocable(old(Snapshot()), id) && id in old(results) && old(results)[id].status.Cancelled?
      ensures status.AlreadyCancelled? || status.Refused? ==> Snapshot() == old(Snapshot())
      ensures !status.Refused? ==> id in results && results[id].status.Cancelled?
    {
      if !(id in requests && requests[id].id == id && PayloadIntact(requests[id])) {
        return Refused;
      }
      if id in results {
        return if results[id].status.Cancelled? then AlreadyCancelled else Refused;
      }
      if RequestExpired(requests[id], clock) {
        return Refused;
      }
      if id in decisions && decisions[id].verdict.Denied? {
        return Refused;
      }
      var created := TryLock(id);
      if !created {
        return Refused;
      }
      Publish(id, TrustedResult(Cancelled, false));
      Unlock(id, choice.unlinkWorks);
      status := CancelledNow;
    }
  }

  function Swept(s: State, paths: seq<string>, mode: RunnerMode, choices: seq<Choice>): State
    requires |choices| == |paths|
  {
    if paths == [] then s
    else
      Pass(Swept(s, paths[..|paths| - 1], mode, choices[..|paths| - 1]), paths[|paths| - 1], mode, choices[|paths| - 1])
  }

  /** A sweep executes each request at most once, even when several files carry the same id, and
      never one that already had a result. */
  lemma {:induction false} SweepExecutesOnce(
    s: State, paths: seq<string>, mode: RunnerMode, choices: seq<Choice>, id: string)
    requires |choices| == |paths| && Balanced(s)
    ensures var s' := Swept(s, paths, mode, choices);
            && Balanced(s') && Executions(s.log, id) <= Executions(s'.log, id) <= 1
            && (id in s.results ==> Executions(s'.log, id) == Executions(s.log, id) && id in s'.results
                                    && s'.results[id] == s.results[id])
  {
    if paths != [] {
      var n := |paths| - 1;
      SweepExecutesOnce(s, paths[..n], mode, choices[..n], id);
      var before := Swept(s, paths[..n], mode, choices[..n]);
      PassKeepsBalance(before, paths[n], mode, choices[n]);
      PassKeepsResult(before, paths[n], mode, choices[n], id);
    }
  }

  ghost predicate KeepsResult(s: State, s': State, id: string) {
    id in s.results ==> id in s'.results && s'.results[id] == s.results[id]
  }

  lemma ProcessingKeepsResult(s: State, r: Request, choice: Choice, id: string)
    ensures KeepsResult(s, UnderLock(s, r, choice), id)
  {
  }

  lemma PassKeepsResult(s: State, path: string, mode: RunnerMode, choice: Choice, id: string)
    ensures KeepsResult(s, Pass(s, path, mode, choice), id)
  {
    if Takes(s, path, mode) {
      ProcessingKeepsResult(Locked(s, s.requests[path].id), s.requests[path], choice, id);
    }
  }
}
