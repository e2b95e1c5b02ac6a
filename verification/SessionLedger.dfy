/** The append-only session ledger: an append-order hash chain over a branching tree of entries,
    and the verifier that decides whether a file is intact. */
module SessionLedger {
  import opened Common

  const SCHEMA_VERSION := 1
  const MAX_PAYLOAD_BYTES := 65536
  const MAX_LEDGER_BYTES := 33554432
  const MAX_REPORTED_ERRORS := 50
  const ID_SPACE: nat := 0x1_0000_0000_0000_0000
  const BRANCH_SPACE: nat := 0x1_0000_0000_0000

  /** `evt-` and sixteen hex digits, or any other text a file may hold. */
  datatype EntryId = Evt(number: nat) | OtherId(text: string)

  /** `main`, `br-` and twelve hex digits, or any other text. */
  datatype BranchId = Main | Br(number: nat) | OtherBranch(text: string)

  datatype Parent = NoParent | ParentId(id: EntryId) | NotAString

  datatype EntryType =
    | Message | ToolCall | ToolResult | Checkpoint | Reflection | Intention | ApprovalRef
    | EvidenceRef | BranchSummary | Compaction | Label | Custom | UnknownType(name: string)

  datatype Origin =
    RuntimeOrigin | AgentSkillOrigin | OwnerOrigin | RunnerOrigin | MigrationOrigin | UnknownOrigin(name: string)

  datatype AgentEventType =
    | RunStarted | TurnStarted | ReasoningStarted | ReasoningDelta | ReasoningCompleted
    | MessageDelta | MessageCompleted | ToolPreflight | ToolStarted | ToolDelta | ToolCompleted
    | ApprovalRequired | ApprovalResolved | RunnerStarted | RunnerCompleted
    | RunCheckpointed | RunCompacted | RunSettled | RunFailed | RunCancelled

  /** The sanitized payload object. Agent events and branch notes keep the fields that
      consumers match on; everything else is canonical text. */
  datatype Payload =
    | Object(text: string)
    | BranchNote(title: string, summary: string, branchedFrom: EntryId)
    | AgentEventNote(runId: string, eventSeq: int, eventType: AgentEventType, eventOrigin: Origin)

  datatype Hash = NoHash | Sha256(core: Core) | OtherText(text: string)

  /** An entry without its own hash. */
  datatype Core = Core(
    schemaVersion: int,
    id: EntryId,
    sessionId: string,
    seqNo: int,
    parent: Parent,
    branch: BranchId,
    kind: EntryType,
    origin: Origin,
    ts: int,
    payload: Payload,
    prevHash: Hash)

  datatype Entry = Entry(core: Core, entryHash: Hash)

  predicate LegalId(id: EntryId) {
    id.Evt? && id.number < ID_SPACE
  }

  predicate LegalBranch(branch: BranchId) {
    branch.Main? || (branch.Br? && branch.number < BRANCH_SPACE)
  }

  // ---------------------------------------------------------------- the verifier

  datatype VerifyError =
    | BadSchema(at: nat) | WrongSession(at: nat) | WrongSeq(at: nat) | BadOrRepeatedId(at: nat)
    | MalformedParent(at: nat) | DanglingParent(at: nat) | BadBranch(at: nat) | BadType(at: nat)
    | BadOrigin(at: nat) | BrokenChain(at: nat) | BadHash(at: nat)

  function IdsOf(entries: seq<Entry>): set<EntryId> {
    set i | 0 <= i < |entries| :: entries[i].core.id
  }

  function BranchesOf(entries: seq<Entry>): set<BranchId> {
    set i | 0 <= i < |entries| && LegalBranch(entries[i].core.branch) :: entries[i].core.branch
  }

  function LastHash(entries: seq<Entry>): Hash {
    if entries == [] then NoHash else entries[|entries| - 1].entryHash
  }

  datatype Check = Check(failed: bool, error: VerifyError)

  /** The checks on one entry, given its position and the ids and the hash before it. */
  function Checks(session: string, e: Entry, n: nat, seen: set<EntryId>, previous: Hash): seq<Check> {
    var c := e.core;
    var parentIsText := c.parent.ParentId? && LegalId(c.parent.id);
    [ Check(c.schemaVersion != SCHEMA_VERSION, BadSchema(n)),
      Check(c.sessionId != session, WrongSession(n)),
      Check(c.seqNo != n, WrongSeq(n)),
      Check(!LegalId(c.id) || c.id in seen, BadOrRepeatedId(n)),
      Check(!c.parent.NoParent? && !parentIsText, MalformedParent(n)),
      Check(parentIsText && c.parent.id !in seen, DanglingParent(n)),
      Check(!LegalBranch(c.branch), BadBranch(n)),
      Check(c.kind.UnknownType?, BadType(n)),
      Check(c.origin.UnknownOrigin?, BadOrigin(n)),
      Check(c.prevHash != previous, BrokenChain(n)),
      Check(e.entryHash != Sha256(c), BadHash(n)) ]
  }

  function Failed(checks: seq<Check>): seq<VerifyError> {
    if checks == [] then []
    else if checks[0].failed then [checks[0].error] + Failed(checks[1..])
    else Failed(checks[1..])
  }

  lemma {:induction false} NothingFailed(checks: seq<Check>)
    ensures Failed(checks) == [] <==> forall c :: c in checks ==> !c.failed
  {
    if checks != [] {
      NothingFailed(checks[1..]);
      assert checks == [checks[0]] + checks[1..];
    }
  }

  function Complaints(session: string, e: Entry, n: nat, seen: set<EntryId>, previous: Hash): seq<VerifyError> {
    Failed(Checks(session, e, n, seen, previous))
  }

  function AllComplaints(session: string, entries: seq<Entry>): seq<VerifyError> {
    if entries == [] then []
    else
      var init := entries[..|entries| - 1];
      AllComplaints(session, init) + Complaints(session, entries[|entries| - 1], |entries|, IdsOf(init), LastHash(init))
  }

  /** One turn of the verifier's loop. */
  lemma VerifyStep(session: string, entries: seq<Entry>, n: nat)
    requires n < |entries|
    ensures AllComplaints(session, entries[..n + 1])
            == AllComplaints(session, entries[..n])
               + Complaints(session, entries[n], n + 1, IdsOf(entries[..n]), LastHash(entries[..n]))
    ensures IdsOf(entries[..n + 1]) == IdsOf(entries[..n]) + {entries[n].core.id}
    ensures LastHash(entries[..n + 1]) == entries[n].entryHash
    ensures BranchesOf(entries[..n + 1])
            == BranchesOf(entries[..n]) + if LegalBranch(entries[n].core.branch) then {entries[n].core.branch} else {}
  {
    var longer := entries[..n + 1];
    assert longer[..n] == entries[..n];
  }

  /** What it means for entry `i` to be in order, stated on the whole file. */
  ghost predicate EntryInOrder(session: string, entries: seq<Entry>, i: nat)
    requires i < |entries|
  {
    var c := entries[i].core;
    && c.schemaVersion == SCHEMA_VERSION && c.sessionId == session && c.seqNo == i + 1
    && LegalId(c.id) && (forall k :: 0 <= k < i ==> entries[k].core.id != c.id)
    && (match c.parent
        case NoParent => true
        case NotAString => false
        case ParentId(id) => LegalId(id) && exists k :: 0 <= k < i && entries[k].core.id == id)
    && LegalBranch(c.branch) && !c.kind.UnknownType? && !c.origin.UnknownOrigin?
    && c.prevHash == (if i == 0 then NoHash else entries[i - 1].entryHash)
    && entries[i].entryHash == Sha256(c)
  }

  ghost predicate Intact(session: string, entries: seq<Entry>) {
    forall i :: 0 <= i < |entries| ==> EntryInOrder(session, entries, i)
  }

  /** What the eleven checks ask of one entry. */
  predicate PassesChecks(session: string, e: Entry, n: nat, seen: set<EntryId>, previous: Hash) {
    var c := e.core;
    && c.schemaVersion == SCHEMA_VERSION && c.sessionId == session && c.seqNo == n
    && LegalId(c.id) && c.id !in seen
    && (c.parent.NoParent? || (c.parent.ParentId? && LegalId(c.parent.id) && c.parent.id in seen))
    && LegalBranch(c.branch) && !c.kind.UnknownType? && !c.origin.UnknownOrigin?
    && c.prevHash == previous && e.entryHash == Sha256(c)
  }

  lemma ComplaintFreeMeaning(session: string, e: Entry, n: nat, seen: set<EntryId>, previous: Hash)
    ensures Complaints(session, e, n, seen, previous) == [] <==> PassesChecks(session, e, n, seen, previous)
  {
    NothingFailed(Checks(session, e, n, seen, previous));
  }

  lemma LastEntryComplaints(session: string, entries: seq<Entry>)
    requires entries != []
    ensures var init := entries[..|entries| - 1];
            Complaints(session, entries[|entries| - 1], |entries|, IdsOf(init), LastHash(init)) == []
            <==> EntryInOrder(session, entries, |entries| - 1)
  {
    var n := |entries| - 1;
    var init := entries[..n];
    assert forall id :: id in IdsOf(init) <==> exists k :: 0 <= k < n && entries[k].core.id == id;
    ComplaintFreeMeaning(session, entries[n], |entries|, IdsOf(init), LastHash(init));
  }

  lemma IntactPrefix(session: string, entries: seq<Entry>)
    requires entries != []
    ensures Intact(session, entries)
            <==> Intact(session, entries[..|entries| - 1]) && EntryInOrder(session, entries, |entries| - 1)
  {
    var n := |entries| - 1;
    var init := entries[..n];
    forall i | 0 <= i < n
      ensures EntryInOrder(session, init, i) <==> EntryInOrder(session, entries, i)
    {
    }
  }

  /** The verifier raises no complaint exactly on an intact file. */
  lemma {:induction false} NoComplaintsMeansIntact(session: string, entries: seq<Entry>)
    ensures AllComplaints(session, entries) == [] <==> Intact(session, entries)
  {
    if entries != [] {
      NoComplaintsMeansIntact(session, entries[..|entries| - 1]);
      LastEntryComplaints(session, entries);
      IntactPrefix(session, entries);
    }
  }

  /** The hash chain pins the whole file: two intact ledgers with the same last hash are equal
      entry for entry, whatever their lengths and sessions. */
  lemma {:induction false} SameLastHashSameLedger(s: string, a: seq<Entry>, t: string, b: seq<Entry>)
    requires Intact(s, a) && Intact(t, b)
    requires LastHash(a) == LastHash(b)
    ensures a == b
  {
    if a != [] {
      IntactPrefix(s, a);
    }
    if b != [] {
      IntactPrefix(t, b);
    }
    if a != [] && b != [] {
      SameLastHashSameLedger(s, a[..|a| - 1], t, b[..|b| - 1]);
      assert a == a[..|a| - 1] + [a[|a| - 1]] && b == b[..|b| - 1] + [b[|b| - 1]];
    }
  }

  /** Appending never repairs a file that fails verification. */
  lemma {:induction false} BrokenStaysBroken(session: string, entries: seq<Entry>, more: seq<Entry>)
    requires !Intact(session, entries)
    ensures !Intact(session, entries + more)
  {
    if more == [] {
      assert entries + more == entries;
    } else {
      var init := more[..|more| - 1];
      BrokenStaysBroken(session, entries, init);
      assert (entries + more)[..|entries + more| - 1] == entries + init;
      IntactPrefix(session, entries + more);
    }
  }

  // ---------------------------------------------------------------- appending

  datatype LedgerError = BadArgument | UnknownParent | InheritedBadBranch | TooLarge | EmptyLabel

  /** The entry a file lookup by id finds: the last one wins. */
  function Lookup(entries: seq<Entry>, id: EntryId): Option<Entry> {
    if entries == [] then None
    else if entries[|entries| - 1].core.id == id then Some(entries[|entries| - 1])
    else Lookup(entries[..|entries| - 1], id)
  }

  /** Without an explicit parent, an entry hangs below the newest one. */
  function ResolveParent(entries: seq<Entry>, requested: Option<EntryId>): Option<EntryId> {
    if requested.Some? then requested
    else if entries == [] || entries[|entries| - 1].core.id == OtherId("") then None
    else Some(entries[|entries| - 1].core.id)
  }

  /** Without an explicit branch, an entry stays on its parent's branch. */
  function ResolveBranch(entries: seq<Entry>, requested: Option<BranchId>, parent: Option<EntryId>): BranchId {
    if requested.Some? then requested.value
    else if parent.Some? && Lookup(entries, parent.value).Some? then
      var inherited := Lookup(entries, parent.value).value.core.branch;
      if inherited == OtherBranch("") then Main else inherited
    else Main
  }

  datatype AppendCall = AppendCall(
    kind: EntryType,
    payload: Payload,
    parent: Option<EntryId>,
    branch: Option<BranchId>,
    origin: Origin,
    newId: EntryId,
    ts: int)

  predicate LegalArguments(call: AppendCall) {
    && !call.kind.UnknownType? && !call.origin.UnknownOrigin?
    && (call.parent.Some? ==> LegalId(call.parent.value))
    && (call.branch.Some? ==> LegalBranch(call.branch.value))
  }

  /** The entry an append writes, or why it writes nothing; `fits` is the size check. */
  function NewEntry(session: string, entries: seq<Entry>, call: AppendCall, fits: bool): Result<Entry, LedgerError> {
    if !LegalArguments(call) then Err(BadArgument)
    else if call.parent.Some? && Lookup(entries, call.parent.value).None? then Err(UnknownParent)
    else
      var parent := ResolveParent(entries, call.parent);
      var branch := ResolveBranch(entries, call.branch, parent);
      if !LegalBranch(branch) then Err(InheritedBadBranch)
      else if !fits then Err(TooLarge)
      else
        var core := Core(SCHEMA_VERSION, call.newId, session, |entries| + 1,
                         if parent.Some? then ParentId(parent.value) else NoParent,
                         branch, call.kind, call.origin, call.ts, call.payload, LastHash(entries));
        Ok(Entry(core, Sha256(core)))
  }

  lemma {:induction false} LookupMeaning(entries: seq<Entry>, id: EntryId)
    ensures Lookup(entries, id).Some? <==> id in IdsOf(entries)
    ensures Lookup(entries, id).Some? ==>
              Lookup(entries, id).value in entries && Lookup(entries, id).value.core.id == id
  {
    if entries != [] {
      var n := |entries| - 1;
      LookupMeaning(entries[..n], id);
      assert IdsOf(entries) == IdsOf(entries[..n]) + {entries[n].core.id};
    }
  }

  /** A resolved parent names an earlier entry. */
  lemma {:induction false} ParentIsEarlier(
    session: string, entries: seq<Entry>, call: AppendCall, fits: bool, id: EntryId)
    requires Intact(session, entries) && NewEntry(session, entries, call, fits).Ok?
    requires NewEntry(session, entries, call, fits).value.core.parent == ParentId(id)
    ensures LegalId(id) && exists k :: 0 <= k < |entries| && entries[k].core.id == id
  {
    if call.parent.Some? {
      LookupMeaning(entries, id);
    } else {
      assert EntryInOrder(session, entries, |entries| - 1);
      assert entries[|entries| - 1].core.id == id;
    }
  }

  /** What a new entry carries over from the arguments and the file. */
  lemma {:induction false} NewEntryInOrder(session: string, entries: seq<Entry>, call: AppendCall, fits: bool)
    requires Intact(session, entries) && NewEntry(session, entries, call, fits).Ok?
    ensures EntryInOrder(session, entries + [NewEntry(session, entries, call, fits).value], |entries|)
            <==> LegalId(call.newId) && call.newId !in IdsOf(entries)
  {
    var e := NewEntry(session, entries, call, fits).value;
    var longer := entries + [e];
    assert forall k :: 0 <= k < |entries| ==> longer[k] == entries[k];
    match e.core.parent
    case NoParent =>
    case ParentId(id) =>
      ParentIsEarlier(session, entries, call, fits, id);
      var k :| 0 <= k < |entries| && entries[k].core.id == id;
      assert longer[k].core.id == id;
  }

  /** An append keeps an intact file intact exactly when the new id is a fresh legal one. */
  lemma AppendKeepsIntact(session: string, entries: seq<Entry>, call: AppendCall, fits: bool)
    requires Intact(session, entries) && NewEntry(session, entries, call, fits).Ok?
    ensures Intact(session, entries + [NewEntry(session, entries, call, fits).value])
            <==> LegalId(call.newId) && call.newId !in IdsOf(entries)
  {
    var longer := entries + [NewEntry(session, entries, call, fits).value];
    assert longer[..|entries|] == entries;
    IntactPrefix(session, longer);
    NewEntryInOrder(session, entries, call, fits);
  }

  datatype Call =
    | Append(call: AppendCall, fits: bool)
    | CreateBranch(parent: EntryId, title: string, summary: string, origin: Origin,
                   newId: EntryId, newBranch: BranchId, ts: int, fits: bool)

  function Truncated(text: string, limit: nat): string {
    if |text| <= limit then text else text[..limit]
  }

  function BranchCall(parent: EntryId, title: string, summary: string, origin: Origin,
                      newId: EntryId, newBranch: BranchId, ts: int): AppendCall {
    AppendCall(BranchSummary, BranchNote(Truncated(title, 200), Truncated(summary, 4000), parent),
               Some(parent), Some(newBranch), origin, newId, ts)
  }

  function Attempt(session: string, entries: seq<Entry>, call: Call): Result<Entry, LedgerError> {
    match call
    case Append(c, fits) => NewEntry(session, entries, c, fits)
    case CreateBranch(parent, title, summary, origin, newId, newBranch, ts, fits) =>
      if !LegalId(parent) then Err(BadArgument)
      else if title == "" then Err(EmptyLabel)
      else NewEntry(session, entries, BranchCall(parent, title, summary, origin, newId, newBranch, ts), fits)
  }

  /** The file after one call; a rejected call writes nothing. */
  function Perform(session: string, entries: seq<Entry>, call: Call): seq<Entry> {
    match Attempt(session, entries, call)
    case Ok(e) => entries + [e]
    case Err(_) => entries
  }

  function Replay(session: string, calls: seq<Call>): seq<Entry> {
    if calls == [] then []
    else Perform(session, Replay(session, calls[..|calls| - 1]), calls[|calls| - 1])
  }

  function IdOf(call: Call): EntryId {
    if call.Append? then call.call.newId else call.newId
  }

  /** Every entry id handed out is a legal uuid nobody else got. */
  ghost predicate FreshIds(calls: seq<Call>) {
    && (forall i :: 0 <= i < |calls| ==> LegalId(IdOf(calls[i])))
    && (forall i, j :: 0 <= i < j < |calls| ==> IdOf(calls[i]) != IdOf(calls[j]))
  }

  lemma PerformFacts(session: string, entries: seq<Entry>, call: Call)
    ensures var after := Perform(session, entries, call);
            && entries <= after
            && (after == entries || (|after| == |entries| + 1 && after[|entries|].core.id == IdOf(call)))
            && (Intact(session, entries) && LegalId(IdOf(call)) && IdOf(call) !in IdsOf(entries) ==>
                  Intact(session, after))
  {
    if Intact(session, entries) && Attempt(session, entries, call).Ok? {
      match call
      case Append(c, fits) => AppendKeepsIntact(session, entries, c, fits);
      case CreateBranch(parent, title, summary, origin, newId, newBranch, ts, fits) =>
        AppendKeepsIntact(session, entries, BranchCall(parent, title, summary, origin, newId, newBranch, ts), fits);
    }
  }

  /** Every ledger built by appends and branch creations verifies, whatever was rejected on the way. */
  lemma {:induction false} BuiltLedgersAreIntact(session: string, calls: seq<Call>)
    requires FreshIds(calls)
    ensures Intact(session, Replay(session, calls))
    ensures forall id :: id in IdsOf(Replay(session, calls)) ==> exists i :: 0 <= i < |calls| && IdOf(calls[i]) == id
  {
    if calls != [] {
      var n := |calls| - 1;
      var init := calls[..n];
      var before, after := Replay(session, init), Replay(session, calls);
      BuiltLedgersAreIntact(session, init);
      PerformFacts(session, before, calls[n]);
      forall id | id in IdsOf(after)
        ensures exists i :: 0 <= i < |calls| && IdOf(calls[i]) == id
      {
        if id in IdsOf(before) {
          var i :| 0 <= i < |init| && IdOf(init[i]) == id;
          assert IdOf(calls[i]) == id;
        } else {
          assert IdOf(calls[n]) == id;
        }
      }
      assert IdOf(calls[n]) !in IdsOf(before);
    }
  }

  /** Earlier entries stay an unchanged prefix. */
  lemma {:induction false} LedgerOnlyGrows(session: string, calls: seq<Call>, more: seq<Call>)
    ensures Replay(session, calls) <= Replay(session, calls + more)
  {
    if more == [] {
      assert calls + more == calls;
    } else {
      var init := more[..|more| - 1];
      LedgerOnlyGrows(session, calls, init);
      assert (calls + more)[..|calls + more| - 1] == calls + init;
      PerformFacts(session, Replay(session, calls + init), more[|more| - 1]);
    }
  }
}
