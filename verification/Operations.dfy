/** The file-backed operation queue: bounded lifetimes, deduplication and derived status. */
module Operations {
  import opened Common
  import opened OwnerApproval

  const MIN_TTL := 15
  const MAX_TTL := 86400

  datatype Risk = Read | Change | Privileged | Forbidden

  datatype Capability = ServerOperations | DockerOperations | OtherCapability(name: string)

  datatype OperationName =
    | Blank
    | Inspect | DockerPs | ServiceStatus                                    // server, read
    | AptUpdate | ComposeDeploy | ComposeDown | ServiceRestart              // server, change
    | DockerInstall                                                         // server, privileged
    | GetDockerLogs | InspectDockerContainer | RunDockerCheck               // docker, read
    | RestartDockerContainer                                                // docker, change
    | OtherOperation(name: string)

  /** The exact content an approval covers; `parameters` is its canonical JSON text. */
  datatype Payload = Payload(capability: Capability, operation: OperationName, target: string, parameters: string)

  /** A request file. Absent or unparsable fields are `None`. */
  datatype Request = Request(
    id: string,
    payload: Payload,
    risk: Risk,
    fingerprint: Option<Fingerprint<Payload>>,
    createdAt: Option<int>,
    expiresAt: Option<int>,
    ttlSeconds: Option<int>,
    requiredApprovers: Option<int>)

  function DefaultTtl(risk: Risk): int {
    match risk
    case Read => 120
    case Privileged => 900
    case _ => 1800
  }

  function RequestTtl(risk: Risk, explicit: Option<int>): int {
    Clamp(if explicit.Some? then explicit.value else DefaultTtl(risk), MIN_TTL, MAX_TTL)
  }

  function RequestExpiry(request: Request): Option<int> {
    if request.expiresAt.Some? then request.expiresAt
    else if request.createdAt.None? then None
    else Some(request.createdAt.value + RequestTtl(request.risk, request.ttlSeconds))
  }

  /** Fails closed: a request whose lifetime cannot be read counts as expired. */
  predicate RequestExpired(request: Request, now: int) {
    var expiry := RequestExpiry(request);
    expiry.None? || now > expiry.value
  }

  predicate PayloadIntact(request: Request) {
    request.fingerprint == Some(Fingerprint(request.payload))
  }

  /** What the owner's decision rule sees of an operation request. */
  function ForApproval(request: Request): ApprovalRequest<Payload> {
    ApprovalRequest(request.id, request.payload, request.fingerprint, request.ttlSeconds, request.requiredApprovers)
  }

  type OpDecision = OwnerApproval.Decision<Payload>

  // ---------------------------------------------------------------- the queue as a value

  /** The queue directories. `order` lists the request files by creation time. */
  datatype Queue = Queue(
    clock: int,
    order: seq<string>,
    requests: map<string, Request>,
    decisions: map<string, OpDecision>,
    results: map<string, string>)

  function DecisionOf(q: Queue, id: string): Option<OpDecision> {
    if id in q.decisions then Some(q.decisions[id]) else None
  }

  predicate DecisionLapsed(d: OpDecision, now: int) {
    now > d.expiresAt
  }

  predicate Reusable(q: Queue, id: string, payload: Payload, risk: Risk) {
    && id in q.requests
    && var r := q.requests[id];
       && r.id == id && r.risk == risk
       && r.payload == payload && PayloadIntact(r)
       && id !in q.results
       && !RequestExpired(r, q.clock)
       && (id in q.decisions ==> !q.decisions[id].verdict.Denied? && !DecisionLapsed(q.decisions[id], q.clock))
  }

  /** The most recent of the first `n` request files that may be reused. */
  function NewestReusable(q: Queue, payload: Payload, risk: Risk, n: nat): Option<string>
    requires n <= |q.order|
  {
    if n == 0 then None
    else if Reusable(q, q.order[n - 1], payload, risk) then Some(q.order[n - 1])
    else NewestReusable(q, payload, risk, n - 1)
  }

  datatype SubmitError = ForbiddenRisk | EmptyOperationOrTarget | DeniedByPolicy | BeyondSubmission | IdTaken

  datatype PolicyRisk =
    PolicyRead | PolicyChange | PolicyPrivileged | PolicyIrreversible | PolicyForbidden | PolicySilent

  /** What the policy engine says of an operation; `denies` covers both "not allowed" and an
      approval mode nobody can satisfy. */
  datatype Policy = Policy(denies: bool, risk: PolicyRisk, allowsAutoExecution: bool)

  datatype Submission = Submission(
    payload: Payload, risk: Risk, policy: Option<Policy>, ttlSeconds: Option<int>, deduplicate: bool, newId: string)

  /** The stricter of the declared and the policy's risk; a read nobody may run on its own becomes
      a change. */
  function StrictestRisk(declared: Risk, policy: Policy): Result<Risk, SubmitError> {
    if policy.risk.PolicyIrreversible? || policy.risk.PolicyForbidden? then Err(BeyondSubmission)
    else
      var effective :=
        if policy.risk.PolicyPrivileged? && (declared.Read? || declared.Change?) then Privileged
        else if policy.risk.PolicyChange? && declared.Read? then Change
        else declared;
      Ok(if effective.Read? && !policy.allowsAutoExecution then Change else effective)
  }

  /** The risk a submission is handled under, or why it is turned away. */
  function EffectiveRisk(sub: Submission): Result<Risk, SubmitError> {
    if sub.risk.Forbidden? then Err(ForbiddenRisk)
    else if sub.payload.operation.Blank? || sub.payload.target == "" then Err(EmptyOperationOrTarget)
    else if sub.policy.None? then Ok(sub.risk)
    else if sub.policy.value.denies then Err(DeniedByPolicy)
    else StrictestRisk(sub.risk, sub.policy.value)
  }

  function Strictness(risk: Risk): nat {
    match risk
    case Read => 0
    case Change => 1
    case Privileged => 2
    case Forbidden => 4
  }

  /** As strict as declared, and as strict as the policy's risk and its word on automatic execution. */
  predicate StrictEnough(sub: Submission, risk: Risk) {
    && !risk.Forbidden? && Strictness(sub.risk) <= Strictness(risk)
    && (sub.policy.Some? ==>
          && (sub.policy.value.risk.PolicyPrivileged? ==> risk.Privileged?)
          && (sub.policy.value.risk.PolicyChange? || !sub.policy.value.allowsAutoExecution ==> !risk.Read?))
  }

  /** An accepted submission is handled under the laxest risk that is strict enough: the policy
      only tightens, and no further than it says. */
  lemma LaxestStrictEnough(sub: Submission, risk: Risk)
    requires EffectiveRisk(sub).Ok?
    ensures StrictEnough(sub, EffectiveRisk(sub).value)
    ensures StrictEnough(sub, risk) ==> Strictness(EffectiveRisk(sub).value) <= Strictness(risk)
  {
  }

  function NewRequest(id: string, payload: Payload, risk: Risk, ttlSeconds: Option<int>, now: int): Request {
    var ttl := RequestTtl(risk, ttlSeconds);
    Request(id, payload, risk, Some(Fingerprint(payload)), Some(now), Some(now + ttl), Some(ttl), None)
  }

  /** Creates a request, or answers with an identical unfinished one when asked to deduplicate. */
  function Submit(q: Queue, sub: Submission): (Queue, Result<string, SubmitError>) {
    match EffectiveRisk(sub)
    case Err(why) => (q, Err(why))
    case Ok(risk) =>
      var reusable := if sub.deduplicate then NewestReusable(q, sub.payload, risk, |q.order|) else None;
      if reusable.Some? then (q, Ok(reusable.value))
      else if sub.newId in q.requests then (q, Err(IdTaken))
      else
        var request := NewRequest(sub.newId, sub.payload, risk, sub.ttlSeconds, q.clock);
        (q.(order := q.order + [sub.newId], requests := q.requests[sub.newId := request]), Ok(sub.newId))
  }

  datatype DecideError = UnknownRequest | Rejected(why: ApprovalError)

  function Decide(q: Queue, id: string, action: Action, actor: string): (Queue, Result<OpDecision, DecideError>) {
    if id !in q.requests || q.requests[id].id != id then (q, Err(UnknownRequest))
    else
      match ApplyOwnerDecision(ForApproval(q.requests[id]), DecisionOf(q, id), action, actor, q.clock)
      case Ok(d) => (q.(decisions := q.decisions[id := d]), Ok(d))
      case Err(why) => (q, Err(Rejected(why)))
  }

  /** A trusted result file is created exclusively. */
  function PostResult(q: Queue, id: string, status: string): Queue {
    if id in q.results then q else q.(results := q.results[id := status])
  }

  datatype Step =
    | SubmitStep(submission: Submission)
    | DecideStep(id: string, action: Action, actor: string)
    | ResultStep(id: string, status: string)
    | TickStep(seconds: nat)

  function Next(q: Queue, step: Step): Queue {
    match step
    case SubmitStep(submission) => Submit(q, submission).0
    case DecideStep(id, action, actor) => Decide(q, id, action, actor).0
    case ResultStep(id, status) => PostResult(q, id, status)
    case TickStep(seconds) => q.(clock := q.clock + seconds)
  }

  function Run(q: Queue, steps: seq<Step>): Queue {
    if steps == [] then q else Next(Run(q, steps[..|steps| - 1]), steps[|steps| - 1])
  }

  function EmptyQueue(clock: int): Queue {
    Queue(clock, [], map[], map[], map[])
  }

  // ---------------------------------------------------------------- derived status

  datatype Status =
    | NotFound | Queued | AwaitingApproval | CollectingApproval
    | Approved | Denied | ApprovalExpired | Expired | Finished(result: string)

  function GetOperation(q: Queue, id: string): Status {
    if id !in q.requests then NotFound
    else if id in q.results then Finished(q.results[id])
    else if RequestExpired(q.requests[id], q.clock) then Expired
    else if id in q.decisions then
      var d := q.decisions[id];
      if d.verdict.Denied? then Status.Denied
      else if DecisionLapsed(d, q.clock) then ApprovalExpired
      else if d.verdict.Approved? then Status.Approved
      else CollectingApproval
    else if q.requests[id].risk.Read? then Queued
    else AwaitingApproval
  }

  /** The order in which a request's status may move. */
  function Rank(status: Status): nat {
    match status
    case NotFound => 0
    case Queued => 1
    case AwaitingApproval => 1
    case CollectingApproval => 1
    case Approved => 2
    case Denied => 3
    case ApprovalExpired => 3
    case Expired => 4
    case Finished(_) => 5
  }

  /** What every queue built by `Submit` looks like: the files are what submission wrote,
      and since submission never asks for several approvers, no decision is still collecting. */
  ghost predicate WellFormed(q: Queue) {
    && NoDuplicates(q.order)
    && (forall id :: id in q.order <==> id in q.requests)
    && (forall id :: id in q.requests ==>
          var r := q.requests[id];
          r.id == id && PayloadIntact(r) && r.expiresAt.Some? && r.requiredApprovers.None?)
    && (forall id :: id in q.decisions ==> id in q.requests && IsFinal(q.decisions[id].verdict))
  }

  lemma SubmitKeepsWellFormed(q: Queue, sub: Submission)
    requires WellFormed(q)
    ensures WellFormed(Submit(q, sub).0)
  {
  }

  lemma DecideKeepsWellFormed(q: Queue, id: string, action: Action, actor: string)
    requires WellFormed(q)
    ensures WellFormed(Decide(q, id, action, actor).0)
  {
  }

  lemma WellFormedKept(q: Queue, step: Step)
    requires WellFormed(q)
    ensures WellFormed(Next(q, step))
  {
    match step
    case SubmitStep(submission) => SubmitKeepsWellFormed(q, submission);
    case DecideStep(id, action, actor) => DecideKeepsWellFormed(q, id, action, actor);
    case _ =>
  }

  lemma {:induction false} WellFormedRun(clock: int, steps: seq<Step>)
    ensures WellFormed(Run(EmptyQueue(clock), steps))
  {
    if steps != [] {
      WellFormedRun(clock, steps[..|steps| - 1]);
      WellFormedKept(Run(EmptyQueue(clock), steps[..|steps| - 1]), steps[|steps| - 1]);
    }
  }

  ghost predicate MovesForward(before: Status, after: Status) {
    before == after || Rank(before) < Rank(after)
  }

  lemma StatusStepForward(q: Queue, step: Step, id: string)
    requires WellFormed(q)
    ensures MovesForward(GetOperation(q, id), GetOperation(Next(q, step), id))
  {
  }

  /** Over any interleaving of submissions, decisions, results and clock ticks, the status a
      client sees of a request only moves forward, and a finished one is frozen. */
  lemma {:induction false} StatusMovesForward(clock: int, steps: seq<Step>, more: seq<Step>, id: string)
    ensures MovesForward(GetOperation(Run(EmptyQueue(clock), steps), id),
                         GetOperation(Run(EmptyQueue(clock), steps + more), id))
  {
    if more == [] {
      assert steps + more == steps;
    } else {
      var init, last := more[..|more| - 1], more[|more| - 1];
      StatusMovesForward(clock, steps, init, id);
      WellFormedRun(clock, steps + init);
      StatusStepForward(Run(EmptyQueue(clock), steps + init), last, id);
      assert steps + more == (steps + init) + [last];
      RunExtends(EmptyQueue(clock), steps + init, last);
    }
  }

  lemma RunExtends(q: Queue, steps: seq<Step>, step: Step)
    ensures Run(q, steps + [step]) == Next(Run(q, steps), step)
  {
    assert (steps + [step])[..|steps|] == steps;
  }

  // ---------------------------------------------------------------- deduplication

  /** A request nothing has ended yet. */
  predicate Live(q: Queue, id: string) {
    id in q.requests && Reusable(q, id, q.requests[id].payload, q.requests[id].risk)
  }

  /** Live is what the status view shows as queued, awaiting approval or approved. */
  lemma LiveIsEarlyStatus(q: Queue, id: string)
    requires WellFormed(q)
    ensures Live(q, id) <==> 1 <= Rank(GetOperation(q, id)) <= 2
  {
  }

  /** A request that stops being reusable never becomes reusable again. */
  lemma NeverLiveAgain(clock: int, steps: seq<Step>, more: seq<Step>, id: string)
    requires id in Run(EmptyQueue(clock), steps).requests && !Live(Run(EmptyQueue(clock), steps), id)
    ensures !Live(Run(EmptyQueue(clock), steps + more), id)
  {
    WellFormedRun(clock, steps);
    WellFormedRun(clock, steps + more);
    LiveIsEarlyStatus(Run(EmptyQueue(clock), steps), id);
    LiveIsEarlyStatus(Run(EmptyQueue(clock), steps + more), id);
    StatusMovesForward(clock, steps, more, id);
  }

  lemma {:induction false} NewestReusableComplete(q: Queue, payload: Payload, risk: Risk, n: nat)
    requires n <= |q.order|
    ensures match NewestReusable(q, payload, risk, n)
            case Some(id) => id in q.order[..n] && Reusable(q, id, payload, risk)
            case None => forall i :: 0 <= i < n ==> !Reusable(q, q.order[i], payload, risk)
  {
    if n > 0 {
      NewestReusableComplete(q, payload, risk, n - 1);
    }
  }

  ghost predicate AtMostOneLive(q: Queue) {
    forall a, b :: Live(q, a) && Live(q, b)
                   && q.requests[a].payload == q.requests[b].payload && q.requests[a].risk == q.requests[b].risk
                   ==> a == b
  }

  lemma LiveWasLive(q: Queue, step: Step, id: string)
    requires WellFormed(q) && id in q.requests && Live(Next(q, step), id)
    ensures Live(q, id)
  {
    WellFormedKept(q, step);
    LiveIsEarlyStatus(q, id);
    LiveIsEarlyStatus(Next(q, step), id);
    StatusStepForward(q, step, id);
  }

  /** Steps of a queue that always deduplicates. */
  predicate Deduplicates(step: Step) {
    step.SubmitStep? ==> step.submission.deduplicate
  }

  /** Requests are immutable, and only a submission that found nothing reusable adds one. */
  lemma NewRequestIsAlone(q: Queue, step: Step, id: string, other: string)
    requires WellFormed(q) && Deduplicates(step)
    requires id in Next(q, step).requests && id !in q.requests && other in q.requests
    requires q.requests[other].payload == Next(q, step).requests[id].payload
    requires q.requests[other].risk == Next(q, step).requests[id].risk
    ensures !Live(q, other)
  {
    NewestReusableComplete(q, step.submission.payload, EffectiveRisk(step.submission).value, |q.order|);
  }

  lemma RequestsStay(q: Queue, step: Step)
    ensures forall id :: id in q.requests ==>
              id in Next(q, step).requests && Next(q, step).requests[id] == q.requests[id]
    ensures forall a, b :: a in Next(q, step).requests && b in Next(q, step).requests
                           && a !in q.requests && b !in q.requests
                           ==> a == b
  {
  }

  lemma AtMostOneLiveKept(q: Queue, step: Step)
    requires WellFormed(q) && AtMostOneLive(q) && Deduplicates(step)
    ensures AtMostOneLive(Next(q, step))
  {
    var q' := Next(q, step);
    RequestsStay(q, step);
    forall a, b | Live(q', a) && Live(q', b)
                  && q'.requests[a].payload == q'.requests[b].payload && q'.requests[a].risk == q'.requests[b].risk
      ensures a == b
    {
      if a in q.requests {
        LiveWasLive(q, step, a);
      }
      if b in q.requests {
        LiveWasLive(q, step, b);
      }
      if a !in q.requests && b in q.requests {
        NewRequestIsAlone(q, step, a, b);
      } else if a in q.requests && b !in q.requests {
        NewRequestIsAlone(q, step, b, a);
      }
    }
  }

  /** With deduplication on, at most one request per payload and risk is ever live. */
  lemma {:induction false} Deduplicated(clock: int, steps: seq<Step>)
    requires forall step :: step in steps ==> Deduplicates(step)
    ensures AtMostOneLive(Run(EmptyQueue(clock), steps))
  {
    if steps != [] {
      var init := steps[..|steps| - 1];
      Deduplicated(clock, init);
      WellFormedRun(clock, init);
      AtMostOneLiveKept(Run(EmptyQueue(clock), init), steps[|steps| - 1]);
    }
  }
}
