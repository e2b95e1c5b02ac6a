/** Request locks of the upgrade runners: between creating and unlinking its lock, a runner has
    the request to itself. */
module UpgradeLocks {
  import opened Common
  import opened UpgradeTransaction
  import opened UpgradeProtocol
  import UpgradeIsolation

  /** The request whose lock a process holds. */
  function HeldRequest(proc: Proc): Option<string> {
    match proc
    case Idle => None
    case Fetched(_) => None
    case AtLock(_) => None
    case Validating(r) => Some(r.id)
    case Publishing(id, _) => Some(id)
    case Unlocking(id) => Some(id)
    case _ => Some(proc.job.request.id)
  }

  /** The processes that hold locks hold existing and different ones. */
  ghost predicate Held(procs: map<nat, Proc>, locks: set<string>) {
    && (forall p :: p in procs && HeldRequest(procs[p]).Some? ==> HeldRequest(procs[p]).value in locks)
    && (forall p, q :: p in procs && q in procs && p != q && HeldRequest(procs[p]).Some?
                       ==> HeldRequest(procs[p]) != HeldRequest(procs[q]))
  }

  ghost predicate LocksHeld(s: State) {
    Held(s.procs, s.locks)
  }

  /** A step takes a free lock, lets go of the lock it holds, or stays with what it holds. */
  predicate Orderly(s: State, before: Proc, after: Proc, effect: Effect) {
    match effect
    case CreateLock(id) => HeldRequest(before).None? && HeldRequest(after) == Some(id) && id !in s.locks
    case RemoveLock(id) => HeldRequest(before) == Some(id) && HeldRequest(after).None?
    case _ => HeldRequest(after) == HeldRequest(before) || HeldRequest(after).None?
  }

  lemma EarlyMoveIsOrderly(s: State, proc: Proc, choice: Choice)
    requires BeforeApply(proc)
    ensures var (after, effect) := MoveBeforeApply(s, proc, choice); Orderly(s, proc, after, effect)
  {
  }

  lemma LateMoveIsOrderly(s: State, proc: Proc, choice: Choice)
    requires !BeforeApply(proc)
    ensures var (after, effect) := MoveInApply(s, proc, choice); Orderly(s, proc, after, effect)
  {
  }

  lemma EffectOnLocks(s: State, effect: Effect)
    ensures Apply(s, effect).locks == match effect
                                      case CreateLock(id) => s.locks + {id}
                                      case RemoveLock(id) => s.locks - {id}
                                      case _ => s.locks
  {
  }

  lemma TakingKeepsHeld(procs: map<nat, Proc>, locks: set<string>, p: nat, after: Proc, lock: string)
    requires Held(procs, locks) && lock !in locks && HeldRequest(after) == Some(lock)
    ensures Held(procs[p := after], locks + {lock})
  {
  }

  lemma ReleasingKeepsHeld(procs: map<nat, Proc>, locks: set<string>, p: nat, after: Proc, lock: string)
    requires Held(procs, locks) && p in procs && HeldRequest(procs[p]) == Some(lock) && HeldRequest(after).None?
    ensures Held(procs[p := after], locks - {lock})
  {
  }

  lemma StayingKeepsHeld(procs: map<nat, Proc>, locks: set<string>, p: nat, after: Proc)
    requires Held(procs, locks)
    requires HeldRequest(after).None? || (p in procs && HeldRequest(after) == HeldRequest(procs[p]))
    ensures Held(procs[p := after], locks)
  {
  }

  lemma OrderlyKeepsLocks(s: State, p: nat, after: Proc, effect: Effect)
    requires LocksHeld(s) && Orderly(s, ProcOf(s, p), after, effect)
    ensures LocksHeld(Apply(s, effect).(procs := s.procs[p := after]))
  {
    EffectOnLocks(s, effect);
    match effect
    case CreateLock(lock) => TakingKeepsHeld(s.procs, s.locks, p, after, lock);
    case RemoveLock(lock) => ReleasingKeepsHeld(s.procs, s.locks, p, after, lock);
    case _ => StayingKeepsHeld(s.procs, s.locks, p, after);
  }

  lemma AdvanceKeepsLocks(s: State, p: nat, choice: Choice)
    requires LocksHeld(s)
    ensures LocksHeld(Next(s, Advance(p, choice)))
  {
    var (after, effect) := Move(s, ProcOf(s, p), choice);
    if BeforeApply(ProcOf(s, p)) {
      EarlyMoveIsOrderly(s, ProcOf(s, p), choice);
    } else {
      LateMoveIsOrderly(s, ProcOf(s, p), choice);
    }
    OrderlyKeepsLocks(s, p, after, effect);
  }

  lemma StartKeepsLocks(s: State, p: nat, path: Path)
    requires LocksHeld(s)
    ensures LocksHeld(Next(s, StartRunner(p, path)))
  {
    if ProcOf(s, p).Idle? && path in s.requests {
      StayingKeepsHeld(s.procs, s.locks, p, Fetched(s.requests[path]));
    }
  }

  lemma OtherStepsKeepLocks(s: State, step: Step)
    requires !step.Advance? && LocksHeld(s)
    ensures LocksHeld(Next(s, step))
  {
    match step
    case StartRunner(p, path) => StartKeepsLocks(s, p, path);
    case _ => UpgradeIsolation.SharedStepKeepsRunners(s, step);
  }

  lemma {:induction false} LocksHoldInEveryRun(clock: int, target: Tree, steps: seq<Step>)
    ensures LocksHeld(Run(clock, target, steps))
  {
    if steps != [] {
      var s, step := Run(clock, target, steps[..|steps| - 1]), steps[|steps| - 1];
      LocksHoldInEveryRun(clock, target, steps[..|steps| - 1]);
      if step.Advance? {
        AdvanceKeepsLocks(s, step.p, step.choice);
      } else {
        OtherStepsKeepLocks(s, step);
      }
    }
  }

  /** Two runners never work on the same request at the same time. */
  lemma OneRunnerPerRequest(s: State, p: nat, q: nat)
    requires Reachable(s) && p != q && HeldRequest(ProcOf(s, p)).Some?
    ensures HeldRequest(ProcOf(s, p)) != HeldRequest(ProcOf(s, q))
  {
    var clock, target, steps :| Run(clock, target, steps) == s;
    LocksHoldInEveryRun(clock, target, steps);
  }
}
