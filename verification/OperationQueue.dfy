/** The queue as the Agent and the owner drive it: newest-first search for a reusable request,
    submission, and an approval that supersedes its duplicates. */
module OperationQueue {
  import opened Common
  import opened OwnerApproval
  import opened Operations

  predicate Pending(q: Queue, request: Request) {
    && request.id !in q.results
    && !(request.id in q.decisions && IsFinal(q.decisions[request.id].verdict))
    && !request.risk.Read?
    && (request.fingerprint.Some? ==> PayloadIntact(request))
  }

  /** The requests among the first `n` files that still wait for the owner, newest first. */
  function PendingItems(q: Queue, n: nat): seq<Request>
    requires n <= |q.order| && forall id :: id in q.order ==> id in q.requests
  {
    if n == 0 then []
    else
      var request := q.requests[q.order[n - 1]];
      (if Pending(q, request) then [request] else []) + PendingItems(q, n - 1)
  }

  /** Denies every listed request with the approved payload; requests that cannot be denied are passed over. */
  function DenyAll(
    q: Queue, items: seq<Request>, approvedId: string, payload: Payload, actor: string
  ): (r: (Queue, seq<string>))
  {
    if items == [] then (q, [])
    else
      var (q1, denied) := DenyAll(q, items[..|items| - 1], approvedId, payload, actor);
      var item := items[|items| - 1];
      if item.id == approvedId || item.payload != payload then (q1, denied)
      else
        var (q2, outcome) := Decide(q1, item.id, Deny, actor);
        (q2, if outcome.Ok? then denied + [item.id] else denied)
  }

  ghost predicate Superseded(q: Queue, id: string, approvedId: string, payload: Payload) {
    id in q.requests && id != approvedId && q.requests[id].payload == payload && Pending(q, q.requests[id])
  }

  lemma {:induction false} PendingItemsMeaning(q: Queue, n: nat)
    requires WellFormed(q) && n <= |q.order|
    ensures forall r :: r in PendingItems(q, n) <==>
              exists i :: 0 <= i < n && r == q.requests[q.order[i]] && Pending(q, r)
    ensures forall i, j :: 0 <= i < j < |PendingItems(q, n)| ==> PendingItems(q, n)[i].id != PendingItems(q, n)[j].id
  {
    if n > 0 {
      PendingItemsMeaning(q, n - 1);
      var items := PendingItems(q, n - 1);
      forall i | 0 <= i < |items|
        ensures items[i].id != q.order[n - 1]
      {
        assert items[i] in items;
      }
    }
  }

  /** The first of two listed requests is the newer one. */
  ghost predicate NewerThan(q: Queue, n: nat, a: string, b: string)
    requires n <= |q.order|
  {
    exists i, j :: 0 <= j < i < n && q.order[i] == a && q.order[j] == b
  }

  ghost predicate NewestFirst(q: Queue, n: nat, items: seq<Request>)
    requires n <= |q.order|
  {
    forall i, j :: 0 <= i < j < |items| ==> NewerThan(q, n, items[i].id, items[j].id)
  }

  lemma {:induction false} PendingNewestFirst(q: Queue, n: nat)
    requires WellFormed(q) && n <= |q.order|
    ensures NewestFirst(q, n, PendingItems(q, n))
  {
    if n > 0 {
      PendingNewestFirst(q, n - 1);
      PendingItemsMeaning(q, n - 1);
      AddingNewest(q, n, PendingItems(q, n - 1));
    }
  }

  lemma AddingNewest(q: Queue, n: nat, rest: seq<Request>)
    requires WellFormed(q) && 0 < n <= |q.order| && NewestFirst(q, n - 1, rest)
    requires forall r :: r in rest ==> exists k :: 0 <= k < n - 1 && r == q.requests[q.order[k]]
    ensures NewestFirst(q, n, rest) && NewestFirst(q, n, [q.requests[q.order[n - 1]]] + rest)
  {
    forall i, j | 0 <= i < j < |rest|
      ensures NewerThan(q, n, rest[i].id, rest[j].id)
    {
      NewerThanGrows(q, n, rest[i].id, rest[j].id);
    }
    var head := q.requests[q.order[n - 1]];
    forall j | 0 <= j < |rest|
      ensures NewerThan(q, n, head.id, rest[j].id)
    {
      assert rest[j] in rest;
      NewestIsNewer(q, n, rest[j]);
    }
    forall i, j | 0 <= i < j < |[head] + rest|
      ensures NewerThan(q, n, ([head] + rest)[i].id, ([head] + rest)[j].id)
    {
      assert ([head] + rest)[j] == rest[j - 1];
      assert i > 0 ==> ([head] + rest)[i] == rest[i - 1];
    }
  }

  lemma NewestIsNewer(q: Queue, n: nat, other: Request)
    requires WellFormed(q) && 0 < n <= |q.order|
    requires exists k :: 0 <= k < n - 1 && other == q.requests[q.order[k]]
    ensures NewerThan(q, n, q.requests[q.order[n - 1]].id, other.id)
  {
    var k :| 0 <= k < n - 1 && other == q.requests[q.order[k]];
    assert q.order[k] == other.id;
  }

  lemma NewerThanGrows(q: Queue, n: nat, a: string, b: string)
    requires 0 < n <= |q.order| && NewerThan(q, n - 1, a, b)
    ensures NewerThan(q, n, a, b)
  {
    var i, j :| 0 <= j < i < n - 1 && q.order[i] == a && q.order[j] == b;
  }

  /** An undecided intact request can be denied, and the denial touches nothing else. */
  lemma DenyingOne(q: Queue, id: string, actor: string)
    requires LegalActor(actor) && id in q.requests && q.requests[id].id == id && PayloadIntact(q.requests[id])
    requires DecisionOf(q, id).Some? ==> !IsFinal(DecisionOf(q, id).value.verdict)
    ensures var (q', outcome) := Decide(q, id, Deny, actor);
            && outcome.Ok? && outcome.value.verdict.Denied?
            && q' == q.(decisions := q.decisions[id := outcome.value])
  {
  }

  lemma {:induction false} DenyAllMeaning(
    q: Queue, items: seq<Request>, approvedId: string, payload: Payload, actor: string)
    requires WellFormed(q) && LegalActor(actor)
    requires forall r :: r in items ==> r.id in q.requests && q.requests[r.id] == r && Pending(q, r)
    requires forall i, j :: 0 <= i < j < |items| ==> items[i].id != items[j].id
    ensures var (q', denied) := DenyAll(q, items, approvedId, payload, actor);
            && q' == q.(decisions := q'.decisions)
            && denied == DeniedIds(items, approvedId, payload)
            && forall id ::
                 if id in denied then id in q'.decisions && q'.decisions[id].verdict.Denied?
                 else DecisionOf(q', id) == DecisionOf(q, id)
  {
    if items != [] {
      var init, item := items[..|items| - 1], items[|items| - 1];
      DenyAllMeaning(q, init, approvedId, payload, actor);
      var (q1, denied1) := DenyAll(q, init, approvedId, payload, actor);
      DeniedIdsMeaning(init, approvedId, payload);
      assert item.id !in denied1;
      assert DecisionOf(q1, item.id) == DecisionOf(q, item.id);
      DenyingOne(q1, item.id, actor);
    }
  }

  /** The ids of the listed duplicates of an approved payload. */
  function DeniedIds(items: seq<Request>, approvedId: string, payload: Payload): seq<string> {
    if items == [] then []
    else
      var item := items[|items| - 1];
      DeniedIds(items[..|items| - 1], approvedId, payload)
        + if item.id == approvedId || item.payload != payload then [] else [item.id]
  }

  lemma {:induction false} DeniedIdsMeaning(items: seq<Request>, approvedId: string, payload: Payload)
    ensures forall id :: id in DeniedIds(items, approvedId, payload)
                         <==> exists i :: 0 <= i < |items| && items[i].id == id && id != approvedId
                                          && items[i].payload == payload
  {
    if items != [] {
      DeniedIdsMeaning(items[..|items| - 1], approvedId, payload);
    }
  }

  function ApproveAndSupersede(q: Queue, id: string, actor: string): (Queue, Result<seq<string>, DecideError>)
    requires forall i :: i in q.order ==> i in q.requests
  {
    var (q1, outcome) := Decide(q, id, Approve, actor);
    match outcome
    case Err(why) => (q1, Err(why))
    case Ok(_) =>
      var (q2, denied) := DenyAll(q1, PendingItems(q1, |q1.order|), id, q1.requests[id].payload, actor);
      (q2, Ok(denied))
  }

  /** After an approval that supersedes duplicates: the approved request keeps its approval,
      every other request of the same payload that was waiting is denied, and nothing else moved. */
  lemma ApprovalSupersedesDuplicates(q: Queue, id: string, actor: string)
    requires WellFormed(q) && ApproveAndSupersede(q, id, actor).1.Ok?
    ensures var (q', outcome) := ApproveAndSupersede(q, id, actor);
            && id in q'.decisions && q'.decisions[id].verdict.Approved?
            && q' == q.(decisions := q'.decisions)
            && forall other :: other != id ==>
                 if Superseded(q, other, id, q.requests[id].payload)
                 then other in q'.decisions && q'.decisions[other].verdict.Denied? && other in outcome.value
                 else DecisionOf(q', other) == DecisionOf(q, other) && other !in outcome.value
  {
    var (q1, _) := Decide(q, id, Approve, actor);
    var payload := q.requests[id].payload;
    ApprovingOne(q, id, actor);
    WellFormedKept(q, DecideStep(id, Approve, actor));
    ListedDuplicates(q1, id, payload);
    DenyAllMeaning(q1, PendingItems(q1, |q1.order|), id, payload, actor);
  }

  /** An approval touches one decision, so it changes nothing about who else is waiting. */
  lemma ApprovingOne(q: Queue, id: string, actor: string)
    requires WellFormed(q) && Decide(q, id, Approve, actor).1.Ok?
    ensures LegalActor(actor) && id in q.requests
    ensures var q' := Decide(q, id, Approve, actor).0;
            && q' == q.(decisions := q'.decisions) && id in q'.decisions && q'.decisions[id].verdict.Approved?
            && forall other :: other != id ==>
                 DecisionOf(q', other) == DecisionOf(q, other)
                 && (Superseded(q', other, id, q.requests[id].payload) <==>
                     Superseded(q, other, id, q.requests[id].payload))
  {
  }

  lemma ListedDuplicates(q: Queue, id: string, payload: Payload)
    requires WellFormed(q)
    ensures var items := PendingItems(q, |q.order|);
            && (forall r :: r in items ==> r.id in q.requests && q.requests[r.id] == r && Pending(q, r))
            && (forall i, j :: 0 <= i < j < |items| ==> items[i].id != items[j].id)
            && (forall other :: other in DeniedIds(items, id, payload) <==> Superseded(q, other, id, payload))
  {
    var items := PendingItems(q, |q.order|);
    PendingItemsMeaning(q, |q.order|);
    DeniedIdsMeaning(items, id, payload);
    forall other | Superseded(q, other, id, payload)
      ensures other in DeniedIds(items, id, payload)
    {
      var i :| 0 <= i < |q.order| && q.order[i] == other;
      assert q.requests[q.order[i]] in items;
    }
  }

  class OperationStore {
    var clock: int
    var order: seq<string>
    var requests: map<string, Request>
    var decisions: map<string, OpDecision>
    var results: map<string, string>

    ghost predicate Valid()
      reads this
    {
      forall id :: id in order ==> id in requests
    }

    function View(): Queue
      reads this
    {
      Queue(clock, order, requests, decisions, results)
    }

    constructor (now: int)
      ensures Valid() && View() == EmptyQueue(now)
    {
      clock, order, requests, decisions, results := now, [], map[], map[], map[];
    }

    method FindReusableOperation(payload: Payload, risk: Risk) returns (found: Option<string>)
      ensures found == NewestReusable(View(), payload, risk, |order|)
    {
      var n := |order|;
      while n > 0
        invariant 0 <= n <= |order|
        invariant NewestReusable(View(), payload, risk, |order|) == NewestReusable(View(), payload, risk, n)
      {
        var id := order[n - 1];
        if id in requests && requests[id].id == id && requests[id].risk == risk
           && requests[id].payload == payload && PayloadIntact(requests[id])
           && id !in results && !RequestExpired(requests[id], clock)
        {
          if id !in decisions || (!decisions[id].verdict.Denied? && !DecisionLapsed(decisions[id], clock)) {
            return Some(id);
          }
        }
        n := n - 1;
      }
      found := None;
    }

    method SubmitOperation(sub: Submission) returns (r: Result<string, SubmitError>)
      requires Valid()
      modifies this
      ensures Valid()
      ensures (View(), r) == Submit(old(View()), sub)
    {
      if sub.risk.Forbidden? {
        return Err(ForbiddenRisk);
      }
      if sub.payload.operation.Blank? || sub.payload.target == "" {
        return Err(EmptyOperationOrTarget);
      }
      var risk := sub.risk;
      if sub.policy.Some? {
        if sub.policy.value.denies {
          return Err(DeniedByPolicy);
        }
        var strictest := StrictestRisk(risk, sub.policy.value);
        if strictest.Err? {
          return Err(strictest.error);
        }
        risk := strictest.value;
      }
      if sub.deduplicate {
        var reusable := FindReusableOperation(sub.payload, risk);
        if reusable.Some? {
          return Ok(reusable.value);
        }
      }
      if sub.newId in requests {
        return Err(IdTaken);
      }
      requests := requests[sub.newId := NewRequest(sub.newId, sub.payload, risk, sub.ttlSeconds, clock)];
      order := order + [sub.newId];
      r := Ok(sub.newId);
    }

    method ApplyDecision(id: string, action: Action, actor: string) returns (r: Result<OpDecision, DecideError>)
      requires Valid()
      modifies this`decisions
      ensures (View(), r) == Decide(old(View()), id, action, actor)
    {
      if id !in requests || requests[id].id != id {
        return Err(UnknownRequest);
      }
      var existing := if id in decisions then Some(decisions[id]) else None;
      var outcome := ApplyOwnerDecision(ForApproval(requests[id]), existing, action, actor, clock);
      if outcome.Err? {
        return Err(Rejected(outcome.error));
      }
      decisions := decisions[id := outcome.value];
      r := Ok(outcome.value);
    }

    method ListPending() returns (items: seq<Request>)
      requires Valid()
      ensures items == PendingItems(View(), |order|)
    {
      items := [];
      for n := 0 to |order|
        invariant items == PendingItems(View(), n)
      {
        var request := requests[order[n]];
        if Pending(View(), request) {
          items := [request] + items;
        }
      }
    }

    method DenyIdenticalPending(approvedId: string, payload: Payload, actor: string) returns (denied: seq<string>)
      requires Valid()
      modifies this`decisions
      ensures (View(), denied) == DenyAll(old(View()), PendingItems(old(View()), |order|), approvedId, payload, actor)
    {
      var items := ListPending();
      denied := [];
      for n := 0 to |items|
        invariant (View(), denied) == DenyAll(old(View()), items[..n], approvedId, payload, actor)
      {
        assert items[..n + 1][..n] == items[..n];
        if items[n].id != approvedId && items[n].payload == payload {
          var outcome := ApplyDecision(items[n].id, Deny, actor);
          if outcome.Ok? {
            denied := denied + [items[n].id];
          }
        }
      }
      assert items[..|items|] == items;
    }

    method ProcessApproval(id: string, actor: string) returns (r: Result<seq<string>, DecideError>)
      requires Valid()
      modifies this`decisions
      ensures Valid()
      ensures (View(), r) == ApproveAndSupersede(old(View()), id, actor)
    {
      var outcome := ApplyDecision(id, Approve, actor);
      if outcome.Err? {
        return Err(outcome.error);
      }
      var denied := DenyIdenticalPending(id, requests[id].payload, actor);
      r := Ok(denied);
    }
  }
}
