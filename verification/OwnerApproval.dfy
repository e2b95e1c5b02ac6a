/** The owner's decisions on queued requests: quorum, finality and one-shot use. */
module OwnerApproval {
  import opened Common

  const DEFAULT_DECISION_TTL := 300
  const MAX_DECISION_TTL := 3600
  const MAX_REQUIRED_APPROVERS := 10

  datatype Action = Approve | Deny

  datatype Verdict = Approved | Denied | Collecting

  datatype Approval = Approval(decidedBy: string, decidedAt: int)

  /** A request as the owner sees it: the content an approval binds, and its declared fingerprint. */
  datatype ApprovalRequest<B> = ApprovalRequest(
    id: string,
    binding: B,
    declared: Option<Fingerprint<B>>,
    ttlSeconds: Option<int>,
    requiredApprovers: Option<int>)

  datatype Decision<B> = Decision(
    requestId: string,
    verdict: Verdict,
    fingerprint: Fingerprint<B>,
    approvals: seq<Approval>,
    decidedBy: string,
    decidedAt: int,
    expiresAt: int)

  datatype ApprovalError = IllegalActor | TamperedFingerprint | AlreadyDecided | OccupiedByOther

  predicate ActorChar(c: char) {
    'A' <= c <= 'Z' || 'a' <= c <= 'z' || '0' <= c <= '9' || c in "._@:-"
  }

  predicate LegalActor(actor: string) {
    1 <= |actor| <= 96 && forall c :: c in actor ==> ActorChar(c)
  }

  function RequiredApprovers<B>(request: ApprovalRequest<B>): nat {
    match request.requiredApprovers
    case None => 1
    case Some(n) => Clamp(n, 1, MAX_REQUIRED_APPROVERS)
  }

  function DecisionTtl<B>(request: ApprovalRequest<B>): nat {
    match request.ttlSeconds
    case None => DEFAULT_DECISION_TTL
    case Some(n) => Clamp(n, 1, MAX_DECISION_TTL)
  }

  predicate Untampered<B(==)>(request: ApprovalRequest<B>) {
    request.declared.Some? ==> request.declared.value == Fingerprint(request.binding)
  }

  predicate IsFinal(verdict: Verdict) {
    verdict.Approved? || verdict.Denied?
  }

  function Voters(approvals: seq<Approval>): (r: seq<string>)
    ensures |r| == |approvals|
    ensures forall i :: 0 <= i < |r| ==> r[i] == approvals[i].decidedBy
  {
    seq(|approvals|, i requires 0 <= i < |approvals| => approvals[i].decidedBy)
  }

  /** One owner decision against the decision file as it stands. `Ok` carries the decision
      stored afterwards; `Err` leaves the file alone. */
  function ApplyOwnerDecision<B(==)>(
    request: ApprovalRequest<B>, existing: Option<Decision<B>>, action: Action, actor: string, at: int
  ): Result<Decision<B>, ApprovalError>
  {
    var fingerprint := Fingerprint(request.binding);
    if !LegalActor(actor) then Err(IllegalActor)
    else if !Untampered(request) then Err(TamperedFingerprint)
    else if existing.Some? && IsFinal(existing.value.verdict) then
      if existing.value.verdict == (if action.Approve? then Approved else Denied)
         && existing.value.fingerprint == fingerprint
      then Ok(existing.value)
      else Err(AlreadyDecided)
    else
      var expiresAt := at + DecisionTtl(request);
      var required := RequiredApprovers(request);
      if action.Deny? then
        Ok(Decision(request.id, Denied, fingerprint, [], actor, at, expiresAt))
      else if required > 1 then
        var earlier := if existing.Some? then existing.value.approvals else [];
        var approvals := if actor in Voters(earlier) then earlier else earlier + [Approval(actor, at)];
        var verdict := if |approvals| >= required then Approved else Collecting;
        Ok(Decision(request.id, verdict, fingerprint, approvals, actor, at, expiresAt))
      else if existing.Some? then
        Err(OccupiedByOther)
      else
        Ok(Decision(request.id, Approved, fingerprint, [], actor, at, expiresAt))
  }

  // ---------------------------------------------------------------- votes in sequence

  datatype Vote = Vote(actor: string, action: Action, at: int)

  /** The stored decision after the votes are processed one at a time. */
  function Tally<B(==)>(request: ApprovalRequest<B>, votes: seq<Vote>): Option<Decision<B>> {
    if votes == [] then None
    else
      var before := Tally(request, votes[..|votes| - 1]);
      var vote := votes[|votes| - 1];
      match ApplyOwnerDecision(request, before, vote.action, vote.actor, vote.at)
      case Ok(decision) => Some(decision)
      case Err(_) => before
  }

  predicate CountsAs(vote: Vote, action: Action) {
    LegalActor(vote.actor) && vote.action == action
  }

  predicate DenyCast(votes: seq<Vote>) {
    exists i :: 0 <= i < |votes| && CountsAs(votes[i], Deny)
  }

  lemma DenyCastExtends(votes: seq<Vote>)
    requires votes != []
    ensures DenyCast(votes) <==> DenyCast(votes[..|votes| - 1]) || CountsAs(votes[|votes| - 1], Deny)
  {
    var n := |votes| - 1;
    if i :| 0 <= i < n && CountsAs(votes[i], Deny) {
      assert CountsAs(votes[..n][i], Deny);
    }
  }

  /** The distinct actors who approved before any deny, in the order of their first vote. */
  function VotersBeforeDeny(votes: seq<Vote>): seq<string> {
    if votes == [] then []
    else
      var init := votes[..|votes| - 1];
      var vote := votes[|votes| - 1];
      if CountsAs(vote, Approve) && !DenyCast(init)
      then AddOnce(VotersBeforeDeny(init), vote.actor)
      else VotersBeforeDeny(init)
  }

  /** Position of an actor's first approving vote that no deny precedes. */
  ghost predicate FirstApproval(votes: seq<Vote>, actor: string, i: nat) {
    && i < |votes|
    && CountsAs(votes[i], Approve) && votes[i].actor == actor
    && !DenyCast(votes[..i])
    && forall k :: 0 <= k < i ==> !(CountsAs(votes[k], Approve) && votes[k].actor == actor)
  }

  lemma FirstApprovalExtends(votes: seq<Vote>, actor: string, i: nat)
    requires votes != []
    requires i < |votes| - 1
    ensures FirstApproval(votes, actor, i) <==> FirstApproval(votes[..|votes| - 1], actor, i)
  {
    var init := votes[..|votes| - 1];
    assert init[..i] == votes[..i];
  }

  /** What `VotersBeforeDeny` means, without replaying the votes: no actor twice, an actor is
      listed exactly when one of its approvals precedes every deny, and listing order is the
      order of first approvals. */
  lemma {:induction false} VotersBeforeDenyMeaning(votes: seq<Vote>)
    ensures NoDuplicates(VotersBeforeDeny(votes))
    ensures forall actor :: actor in VotersBeforeDeny(votes) <==> exists i: nat :: FirstApproval(votes, actor, i)
    ensures forall a, b, i: nat, j: nat ::
              0 <= a < |VotersBeforeDeny(votes)| && 0 <= b < |VotersBeforeDeny(votes)|
              && FirstApproval(votes, VotersBeforeDeny(votes)[a], i)
              && FirstApproval(votes, VotersBeforeDeny(votes)[b], j)
              ==> (a < b <==> i < j)
  {
    if votes != [] {
      var n := |votes| - 1;
      var init, vote := votes[..n], votes[n];
      VotersBeforeDenyMeaning(init);
      var before, after := VotersBeforeDeny(init), VotersBeforeDeny(votes);
      forall actor: string, i: nat | i < n
        ensures FirstApproval(votes, actor, i) <==> FirstApproval(init, actor, i)
      {
        FirstApprovalExtends(votes, actor, i);
      }
      forall actor: string
        ensures FirstApproval(votes, actor, n) <==>
                CountsAs(vote, Approve) && vote.actor == actor && !DenyCast(init) && actor !in before
      {
        assert votes[..n] == init;
        if CountsAs(vote, Approve) && vote.actor == actor && !DenyCast(init) {
          FirstApprovalIsLeast(init, actor);
        }
      }
      forall actor: string
        ensures actor in after <==> exists i: nat :: FirstApproval(votes, actor, i)
      {
        if actor in before {
          var i: nat :| FirstApproval(init, actor, i);
          assert FirstApproval(votes, actor, i);
        } else if actor in after {
          assert FirstApproval(votes, actor, n);
        }
      }
    }
  }

  /** Without a deny, an actor has a first approval exactly when it approved at all. */
  lemma {:induction false} FirstApprovalIsLeast(votes: seq<Vote>, actor: string)
    requires !DenyCast(votes)
    ensures (exists i: nat :: FirstApproval(votes, actor, i))
            <==> exists k :: 0 <= k < |votes| && CountsAs(votes[k], Approve) && votes[k].actor == actor
  {
    if votes != [] {
      var n := |votes| - 1;
      var init := votes[..n];
      DenyCastExtends(votes);
      FirstApprovalIsLeast(init, actor);
      if i: nat :| FirstApproval(init, actor, i) {
        FirstApprovalExtends(votes, actor, i);
      } else if CountsAs(votes[n], Approve) && votes[n].actor == actor {
        assert forall j :: 0 <= j < n ==> init[j] == votes[j];
        assert FirstApproval(votes, actor, n);
      }
    }
  }

  /** The quorum rule, for every sequence of votes on an untampered request: approved exactly
      when enough distinct actors approved before any deny, the approvals being the first
      of them in order; denied exactly when a deny came first; otherwise still collecting. */
  lemma {:induction false} TallyIsQuorum<B>(request: ApprovalRequest<B>, votes: seq<Vote>)
    requires Untampered(request)
    ensures var voters, required := VotersBeforeDeny(votes), RequiredApprovers(request);
            var tally := Tally(request, votes);
            && (tally.None? <==> voters == [] && !DenyCast(votes))
            && (tally.Some? ==>
                  var d := tally.value;
                  && d.requestId == request.id && d.fingerprint == Fingerprint(request.binding)
                  && (d.verdict.Approved? <==> |voters| >= required)
                  && (d.verdict.Denied? <==> |voters| < required && DenyCast(votes))
                  && (required > 1 && d.verdict.Approved? ==> Voters(d.approvals) == voters[..required])
                  && (d.verdict.Collecting? ==> required > 1 && Voters(d.approvals) == voters))
  {
    if votes != [] {
      var n := |votes| - 1;
      var init, vote := votes[..n], votes[n];
      TallyIsQuorum(request, init);
      DenyCastExtends(votes);
    }
  }

  /** The approval window: a stored decision names one of the votes, of its own kind, and
      lapses one bounded lifetime after that vote. */
  lemma {:induction false} DecisionWindow<B>(request: ApprovalRequest<B>, votes: seq<Vote>)
    requires Tally(request, votes).Some?
    ensures var d := Tally(request, votes).value;
            && d.expiresAt == d.decidedAt + DecisionTtl(request)
            && 1 <= DecisionTtl(request) <= MAX_DECISION_TTL
            && exists i :: 0 <= i < |votes| && CountsAs(votes[i], if d.verdict.Denied? then Deny else Approve)
                           && votes[i].actor == d.decidedBy && votes[i].at == d.decidedAt
  {
    var n := |votes| - 1;
    var init := votes[..n];
    var d := Tally(request, votes).value;
    if Tally(request, init) == Some(d) {
      DecisionWindow(request, init);
      var i :| 0 <= i < n && CountsAs(init[i], if d.verdict.Denied? then Deny else Approve)
               && init[i].actor == d.decidedBy && init[i].at == d.decidedAt;
      assert votes[i] == init[i];
    } else {
      assert CountsAs(votes[n], if d.verdict.Denied? then Deny else Approve);
    }
  }

  /** A final decision survives any further votes unchanged. */
  lemma {:induction false} FinalDecisionsNeverChange<B>(request: ApprovalRequest<B>, votes: seq<Vote>, more: seq<Vote>)
    requires Tally(request, votes).Some? && IsFinal(Tally(request, votes).value.verdict)
    ensures Tally(request, votes + more) == Tally(request, votes)
  {
    if more == [] {
      assert votes + more == votes;
    } else {
      var init := more[..|more| - 1];
      FinalDecisionsNeverChange(request, votes, init);
      assert (votes + more)[..|votes + more| - 1] == votes + init;
    }
  }

  // ---------------------------------------------------------------- one-shot authorizations

  datatype AuthStatus =
    AuthPending | AuthApproved | AuthDenied | AuthExpired | AuthUsed | AuthNotFound | AuthBindingMismatch

  /** The quorum `check_auth` asks for, read straight from the request without an upper bound. */
  function CheckedApprovers<B>(request: ApprovalRequest<B>): int {
    match request.requiredApprovers
    case None => 1
    case Some(n) => if n == 0 then 1 else n
  }

  function CheckAuth<B(==)>(
    request: ApprovalRequest<B>, requestExpiresAt: int, used: bool, decision: Option<Decision<B>>,
    expected: Option<B>, now: int
  ): AuthStatus
  {
    var waiting := if now > requestExpiresAt then AuthExpired else AuthPending;
    var required := CheckedApprovers(request);
    if used then AuthUsed
    else if decision.None? then waiting
    else
      var d := decision.value;
      if d.verdict.Denied? then AuthDenied
      else if !d.verdict.Approved? then (if required > 1 then waiting else AuthNotFound)
      else if required > 1 && |set a | a in Voters(d.approvals)| < required then waiting
      else if now > d.expiresAt then AuthExpired
      else if d.fingerprint != Fingerprint(request.binding) then AuthBindingMismatch
      else if expected.Some? && d.fingerprint != Fingerprint(expected.value) then AuthBindingMismatch
      else AuthApproved
  }

  lemma {:induction false} DistinctCount<T>(xs: seq<T>)
    requires NoDuplicates(xs)
    ensures |set x | x in xs| == |xs|
  {
    if xs != [] {
      var init, last := xs[..|xs| - 1], xs[|xs| - 1];
      DistinctCount(init);
      assert (set x | x in xs) == (set x | x in init) + {last};
    }
  }

  /** Exactly when an authorization is usable after any sequence of votes. The stored quorum is
      capped at ten while the check is not, so a request for more than ten is never approved. */
  lemma ApprovedExactly<B>(
    request: ApprovalRequest<B>, votes: seq<Vote>, requestExpiresAt: int, used: bool,
    expected: Option<B>, now: int)
    requires Untampered(request)
    ensures CheckAuth(request, requestExpiresAt, used, Tally(request, votes), expected, now) == AuthApproved
            <==>
            && !used
            && |VotersBeforeDeny(votes)| >= RequiredApprovers(request)
            && CheckedApprovers(request) <= MAX_REQUIRED_APPROVERS
            && Tally(request, votes).Some? && now <= Tally(request, votes).value.expiresAt
            && (expected.Some? ==> expected.value == request.binding)
  {
    TallyIsQuorum(request, votes);
    VotersBeforeDenyMeaning(votes);
    var tally := Tally(request, votes);
    if tally.Some? && tally.value.verdict.Approved? && RequiredApprovers(request) > 1 {
      DistinctCount(Voters(tally.value.approvals));
    }
  }

  // ---------------------------------------------------------------- a quorum the check never meets

  const BIG_QUORUM := 11

  /** A request for more approvers than the decision rule will ever collect. */
  const CROWDED: ApprovalRequest<bool> := ApprovalRequest("auth-crowd", true, None, None, Some(BIG_QUORUM))

  function Letter(i: nat): string
    requires i < BIG_QUORUM
  {
    [('a' as int + i) as char]
  }

  function LetterVotes(n: nat): seq<Vote>
    requires n <= BIG_QUORUM
  {
    seq(n, i requires 0 <= i < n => Vote(Letter(i), Approve, 0))
  }

  lemma {:induction false} LetterVoters(n: nat)
    requires n <= BIG_QUORUM
    ensures !DenyCast(LetterVotes(n)) && |VotersBeforeDeny(LetterVotes(n))| == n
    ensures forall actor :: actor in VotersBeforeDeny(LetterVotes(n)) ==> exists i :: 0 <= i < n && actor == Letter(i)
  {
    if n > 0 {
      LetterVoters(n - 1);
      var votes := LetterVotes(n);
      assert votes[..n - 1] == LetterVotes(n - 1);
      assert votes[n - 1].actor == Letter(n - 1);
      DenyCastExtends(votes);
      forall i | 0 <= i < n - 1
        ensures Letter(i) != Letter(n - 1)
      {
        assert Letter(i)[0] != Letter(n - 1)[0];
      }
    }
  }

  /** Eleven distinct actors approve a request for eleven, without a deny and at once: the stored
      decision says approved, the authorization check does not. */
  lemma QuorumOfElevenIsNeverMet()
    ensures var tally := Tally(CROWDED, LetterVotes(BIG_QUORUM));
            && |VotersBeforeDeny(LetterVotes(BIG_QUORUM))| == BIG_QUORUM
            && tally.Some? && tally.value.verdict.Approved? && tally.value.expiresAt >= 0
            && CheckAuth(CROWDED, 0, false, tally, None, 0) != AuthApproved
  {
    LetterVoters(BIG_QUORUM);
    TallyIsQuorum(CROWDED, LetterVotes(BIG_QUORUM));
    DecisionWindow(CROWDED, LetterVotes(BIG_QUORUM));
    var i :| 0 <= i < BIG_QUORUM
             && LetterVotes(BIG_QUORUM)[i].at == Tally(CROWDED, LetterVotes(BIG_QUORUM)).value.decidedAt;
    ApprovedExactly(CROWDED, LetterVotes(BIG_QUORUM), 0, false, None, 0);
  }

  // ---------------------------------------------------------------- requests that change between votes

  /** One vote and the request file as it stands when the vote is processed. */
  datatype Ballot<B> = Ballot(request: ApprovalRequest<B>, vote: Vote)

  function TallyOf<B(==)>(ballots: seq<Ballot<B>>): Option<Decision<B>> {
    if ballots == [] then None
    else
      var before := TallyOf(ballots[..|ballots| - 1]);
      var last := ballots[|ballots| - 1];
      match ApplyOwnerDecision(last.request, before, last.vote.action, last.vote.actor, last.vote.at)
      case Ok(decision) => Some(decision)
      case Err(_) => before
  }

  function VotesOf<B>(ballots: seq<Ballot<B>>): seq<Vote> {
    seq(|ballots|, i requires 0 <= i < |ballots| => ballots[i].vote)
  }

  /** While the request file stays as it is, this is the tally above. */
  lemma {:induction false} SteadyRequestTally<B>(request: ApprovalRequest<B>, ballots: seq<Ballot<B>>)
    requires forall b :: b in ballots ==> b.request == request
    ensures TallyOf(ballots) == Tally(request, VotesOf(ballots))
  {
    if ballots != [] {
      var n := |ballots| - 1;
      SteadyRequestTally(request, ballots[..n]);
      assert VotesOf(ballots)[..n] == VotesOf(ballots[..n]);
      assert ballots[n].request == request;
    }
  }

  // ---------------------------------------------------------------- the quorum over a changing file

  /** A ballot the rule looks at: a legal actor, and a request file whose fingerprint is its own. */
  predicate Proper<B(==)>(ballot: Ballot<B>) {
    LegalActor(ballot.vote.actor) && Untampered(ballot.request)
  }

  /** An approval of a request that asks, at that moment, for several approvers. */
  predicate Joins<B(==)>(ballot: Ballot<B>) {
    Proper(ballot) && ballot.vote.action.Approve? && RequiredApprovers(ballot.request) > 1
  }

  /** The distinct actors of the joining ballots, in the order of their first. */
  function Joined<B(==)>(ballots: seq<Ballot<B>>): seq<string> {
    if ballots == [] then []
    else
      var earlier := Joined(ballots[..|ballots| - 1]);
      if Joins(ballots[|ballots| - 1]) then AddOnce(earlier, ballots[|ballots| - 1].vote.actor) else earlier
  }

  /** Ballot `k` ends the voting if it is still open: it denies, it approves alone when nobody has
      joined, or it joins and those who have joined are as many as its own request file asks for. */
  predicate Closes<B(==)>(ballots: seq<Ballot<B>>, k: nat)
    requires k < |ballots|
  {
    var ballot := ballots[k];
    && Proper(ballot)
    && (|| ballot.vote.action.Deny?
        || (RequiredApprovers(ballot.request) == 1 && Joined(ballots[..k]) == [])
        || (Joins(ballot) && |Joined(ballots[..k + 1])| >= RequiredApprovers(ballot.request)))
  }

  ghost predicate Open<B>(ballots: seq<Ballot<B>>) {
    forall k :: 0 <= k < |ballots| ==> !Closes(ballots, k)
  }

  ghost predicate ClosedAt<B>(ballots: seq<Ballot<B>>, k: nat) {
    k < |ballots| && Closes(ballots, k) && Open(ballots[..k])
  }

  lemma PrefixCloses<B>(ballots: seq<Ballot<B>>, n: nat, k: nat)
    requires k < n <= |ballots|
    ensures Closes(ballots[..n], k) <==> Closes(ballots, k)
  {
    assert ballots[..n][..k] == ballots[..k] && ballots[..n][..k + 1] == ballots[..k + 1];
  }

  lemma OpenExtends<B>(ballots: seq<Ballot<B>>)
    requires ballots != []
    ensures Open(ballots) <==> Open(ballots[..|ballots| - 1]) && !Closes(ballots, |ballots| - 1)
  {
    var n := |ballots| - 1;
    forall k | 0 <= k < n
      ensures Closes(ballots[..n], k) <==> Closes(ballots, k)
    {
      PrefixCloses(ballots, n, k);
    }
  }

  /** While the voting is open, the file collects exactly those who have joined. */
  lemma {:induction false} OpenCollects<B>(ballots: seq<Ballot<B>>)
    requires Open(ballots)
    ensures TallyOf(ballots).None? <==> Joined(ballots) == []
    ensures TallyOf(ballots).Some? ==>
              TallyOf(ballots).value.verdict.Collecting? && Voters(TallyOf(ballots).value.approvals) == Joined(ballots)
  {
    if ballots != [] {
      OpenExtends(ballots);
      OpenCollects(ballots[..|ballots| - 1]);
      assert ballots[..|ballots|] == ballots;
    }
  }

  /** The ballot that closes the voting decides: its own action, request and content, with those
      who have joined by then. */
  ghost predicate DecidedBy<B>(ballots: seq<Ballot<B>>, k: nat)
    requires k < |ballots|
  {
    var ballot, tally := ballots[k], TallyOf(ballots);
    && tally.Some?
    && tally.value.verdict == (if ballot.vote.action.Deny? then Denied else Approved)
    && tally.value.requestId == ballot.request.id
    && tally.value.fingerprint == Fingerprint(ballot.request.binding)
    && tally.value.decidedBy == ballot.vote.actor && tally.value.decidedAt == ballot.vote.at
    && Voters(tally.value.approvals) == if Joins(ballot) then Joined(ballots[..k + 1]) else []
  }

  lemma {:induction false} LastBallotDecides<B>(ballots: seq<Ballot<B>>)
    requires ballots != [] && ClosedAt(ballots, |ballots| - 1)
    ensures DecidedBy(ballots, |ballots| - 1)
  {
    OpenCollects(ballots[..|ballots| - 1]);
    assert ballots[..|ballots|] == ballots;
  }

  lemma {:induction false} ClosingDecides<B>(ballots: seq<Ballot<B>>, k: nat)
    requires ClosedAt(ballots, k)
    ensures DecidedBy(ballots, k)
  {
    var n := |ballots| - 1;
    if k < n {
      PrefixCloses(ballots, n, k);
      assert ballots[..n][..k] == ballots[..k] && ballots[..n][..k + 1] == ballots[..k + 1];
      ClosingDecides(ballots[..n], k);
    } else {
      LastBallotDecides(ballots);
    }
  }

  /** The quorum rule with the request file changing between the votes, required number included:
      the first ballot that closes the voting decides it for good, and until one does the file
      collects exactly the distinct actors who have joined. */
  lemma QuorumOverChangingFile<B>(ballots: seq<Ballot<B>>)
    ensures forall k: nat :: ClosedAt(ballots, k) ==> DecidedBy(ballots, k)
    ensures TallyOf(ballots).Some? && IsFinal(TallyOf(ballots).value.verdict) <==> exists k: nat :: ClosedAt(ballots, k)
    ensures (forall k: nat :: !ClosedAt(ballots, k)) ==>
              && (TallyOf(ballots).None? <==> Joined(ballots) == [])
              && (TallyOf(ballots).Some? ==> Voters(TallyOf(ballots).value.approvals) == Joined(ballots))
  {
    forall k: nat | ClosedAt(ballots, k)
      ensures DecidedBy(ballots, k)
    {
      ClosingDecides(ballots, k);
    }
    if Open(ballots) {
      OpenCollects(ballots);
    } else {
      FirstClosing(ballots);
    }
  }

  lemma {:induction false} FirstClosing<B>(ballots: seq<Ballot<B>>)
    requires !Open(ballots)
    ensures exists k: nat :: ClosedAt(ballots, k)
  {
    var n := |ballots| - 1;
    OpenExtends(ballots);
    if Open(ballots[..n]) {
      assert ClosedAt(ballots, n);
    } else {
      FirstClosing(ballots[..n]);
      var k: nat :| ClosedAt(ballots[..n], k);
      PrefixCloses(ballots, n, k);
      assert ballots[..n][..k] == ballots[..k];
      assert ClosedAt(ballots, k);
    }
  }

  // ---------------------------------------------------------------- what the approvals were cast on

  /** The last vote adds an approval to a decision that collects several. */
  predicate Counted<B(==)>(ballots: seq<Ballot<B>>)
    requires ballots != []
  {
    var before, after := TallyOf(ballots[..|ballots| - 1]), TallyOf(ballots);
    after.Some? && |after.value.approvals| > (if before.Some? then |before.value.approvals| else 0)
  }

  /** The contents on which the approvals now stored were cast, in the same order. */
  function CastOn<B(==)>(ballots: seq<Ballot<B>>): seq<B> {
    if ballots == [] then []
    else
      var earlier := CastOn(ballots[..|ballots| - 1]);
      var last := ballots[|ballots| - 1];
      if TallyOf(ballots).Some? && TallyOf(ballots).value.approvals == [] then []
      else if Counted(ballots) then earlier + [last.request.binding]
      else earlier
  }

  /** Every approval in the stored decision was cast on the content whose fingerprint it carries. */
  ghost predicate CastOnApproved<B>(ballots: seq<Ballot<B>>) {
    TallyOf(ballots).Some? ==>
      forall content :: content in CastOn(ballots) ==> Fingerprint(content) == TallyOf(ballots).value.fingerprint
  }

  /** An approval that goes to a collecting decision finds the content its fingerprint names: what
      a caller can compare before the vote. */
  predicate KeepsContent<B(==)>(before: Option<Decision<B>>, ballot: Ballot<B>) {
    (&& before.Some? && before.value.verdict.Collecting?
     && ballot.vote.action.Approve? && LegalActor(ballot.vote.actor)
     && Untampered(ballot.request) && RequiredApprovers(ballot.request) > 1) ==>
      before.value.fingerprint == Fingerprint(ballot.request.binding)
  }

  predicate Steady<B(==)>(ballots: seq<Ballot<B>>) {
    ballots == [] ||
    (Steady(ballots[..|ballots| - 1]) && KeepsContent(TallyOf(ballots[..|ballots| - 1]), ballots[|ballots| - 1]))
  }

  ghost predicate VotesOnce<B>(ballots: seq<Ballot<B>>) {
    forall i, j :: 0 <= i < j < |ballots| ==> ballots[i].vote.actor != ballots[j].vote.actor
  }

  /** What the counted contents are: as many as there are approvals, whose voters voted before. */
  lemma {:induction false} CastCount<B>(ballots: seq<Ballot<B>>)
    ensures TallyOf(ballots).None? ==> CastOn(ballots) == []
    ensures TallyOf(ballots).Some? ==>
              && |CastOn(ballots)| == |TallyOf(ballots).value.approvals|
              && (TallyOf(ballots).value.verdict.Collecting? ==> CastOn(ballots) != [])
              && forall actor :: actor in Voters(TallyOf(ballots).value.approvals) ==>
                   exists i :: 0 <= i < |ballots| && ballots[i].vote.actor == actor
  {
    if ballots != [] {
      var n := |ballots| - 1;
      CastCount(ballots[..n]);
      var before, after := TallyOf(ballots[..n]), TallyOf(ballots);
      if after.Some? {
        forall actor | actor in Voters(after.value.approvals)
          ensures exists i :: 0 <= i < |ballots| && ballots[i].vote.actor == actor
        {
          if before.Some? && actor in Voters(before.value.approvals) {
            var i :| 0 <= i < n && ballots[..n][i].vote.actor == actor;
            assert ballots[i].vote.actor == actor;
          } else {
            assert ballots[n].vote.actor == actor;
          }
        }
      }
    }
  }

  lemma {:induction false} SteadyMeansCastOnApproved<B>(ballots: seq<Ballot<B>>)
    requires Steady(ballots)
    ensures CastOnApproved(ballots)
  {
    if ballots != [] {
      var n := |ballots| - 1;
      SteadyMeansCastOnApproved(ballots[..n]);
      CastCount(ballots[..n]);
    }
  }

  /** While nobody votes twice, a collecting decision carries the fingerprint of its last vote. */
  lemma {:induction false} FingerprintOfLastVote<B>(ballots: seq<Ballot<B>>)
    requires VotesOnce(ballots) && CastOn(ballots) != []
    ensures TallyOf(ballots).Some?
    ensures TallyOf(ballots).value.fingerprint == Fingerprint(CastOn(ballots)[|CastOn(ballots)| - 1])
  {
    var n := |ballots| - 1;
    CastCount(ballots);
    CastCount(ballots[..n]);
    if CastOn(ballots[..n]) != [] {
      FingerprintOfLastVote(ballots[..n]);
    }
  }

  lemma {:induction false} CastOnApprovedMeansSteady<B>(ballots: seq<Ballot<B>>)
    requires VotesOnce(ballots) && CastOnApproved(ballots)
    requires TallyOf(ballots).Some? ==> !TallyOf(ballots).value.verdict.Denied?
    ensures Steady(ballots)
  {
    if ballots != [] {
      var n := |ballots| - 1;
      CastCount(ballots[..n]);
      if CastOn(ballots[..n]) != [] {
        FingerprintOfLastVote(ballots[..n]);
      }
      CastOnApprovedMeansSteady(ballots[..n]);
    }
  }

  /** Collected approvals are carried over even when the request file changes between votes. Every
      counted approval was cast on the approved content if each approval found the content of the
      collecting decision it went to; and, while nobody votes twice or denies, only then. */
  lemma CountedOnApprovedContent<B>(ballots: seq<Ballot<B>>)
    ensures Steady(ballots) ==> CastOnApproved(ballots)
    ensures VotesOnce(ballots) && (TallyOf(ballots).Some? ==> !TallyOf(ballots).value.verdict.Denied?) ==>
              (CastOnApproved(ballots) <==> Steady(ballots))
  {
    if Steady(ballots) {
      SteadyMeansCastOnApproved(ballots);
    }
    if VotesOnce(ballots) && CastOnApproved(ballots)
       && (TallyOf(ballots).Some? ==> !TallyOf(ballots).value.verdict.Denied?) {
      CastOnApprovedMeansSteady(ballots);
    }
  }

  const FIRST_CONTENT: ApprovalRequest<bool> := ApprovalRequest("op", true, Some(Fingerprint(true)), None, Some(2))
  const SECOND_CONTENT: ApprovalRequest<bool> := ApprovalRequest("op", false, Some(Fingerprint(false)), None, Some(2))

  const CARRIED_OVER: seq<Ballot<bool>> :=
    [Ballot(FIRST_CONTENT, Vote("p", Approve, 0)), Ballot(SECOND_CONTENT, Vote("q", Approve, 0))]

  /** The failing case: one actor approves one content, the file changes, another approves the
      other; the result is an approval of the second content by both. */
  lemma ApprovalCarriedOver()
    ensures VotesOnce(CARRIED_OVER) && TallyOf(CARRIED_OVER).Some? && TallyOf(CARRIED_OVER).value.verdict.Approved?
    ensures TallyOf(CARRIED_OVER).value.fingerprint == Fingerprint(false)
    ensures Voters(TallyOf(CARRIED_OVER).value.approvals) == ["p", "q"]
    ensures CastOn(CARRIED_OVER) == [true, false] && !CastOnApproved(CARRIED_OVER)
  {
    var p := CARRIED_OVER[0];
    assert LegalActor("p") && LegalActor("q");
    assert CARRIED_OVER[..1] == [p] && [p][..0] == [];
    var one := ApplyOwnerDecision(FIRST_CONTENT, None, Approve, "p", 0).value;
    assert one.verdict.Collecting? && Voters(one.approvals) == ["p"];
    assert TallyOf([p][..0]) == None && TallyOf([p]) == Some(one);
    assert CastOn([p]) == [true];
    var two := ApplyOwnerDecision(SECOND_CONTENT, Some(one), Approve, "q", 0).value;
    assert TallyOf(CARRIED_OVER) == Some(two);
    assert CastOn(CARRIED_OVER)[0];
  }
}
