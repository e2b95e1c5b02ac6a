/** The owner-local ledger files, one per session, as the store object updates them. */
module LedgerStore {
  import opened Common
  import opened SessionLedger

  datatype Report = Report(
    count: nat,
    branches: set<BranchId>,
    lastId: Option<EntryId>,
    lastHash: Hash,
    ok: bool,
    errors: seq<VerifyError>)

  class SessionLedgerStore {
    var files: map<string, seq<Entry>>
    var sizes: map<string, nat>

    function Lines(session: string): seq<Entry>
      reads this`files
    {
      if session in files then files[session] else []
    }

    function Size(session: string): nat
      reads this`sizes
    {
      if session in sizes then sizes[session] else 0
    }

    constructor ()
      ensures files == map[] && sizes == map[]
    {
      files, sizes := map[], map[];
    }

    /** The verifier's single pass over the entries. */
    method Scan(session: string, entries: seq<Entry>)
      returns (errors: seq<VerifyError>, previous: Hash, branches: set<BranchId>)
      ensures errors == AllComplaints(session, entries)
      ensures previous == LastHash(entries)
      ensures branches == BranchesOf(entries)
    {
      var seen: set<EntryId> := {};
      previous, errors, branches := NoHash, [], {};
      for index := 0 to |entries|
        invariant seen == IdsOf(entries[..index])
        invariant previous == LastHash(entries[..index])
        invariant errors == AllComplaints(session, entries[..index])
        invariant branches == BranchesOf(entries[..index])
      {
        var entry := entries[index];
        VerifyStep(session, entries, index);
        errors := errors + Complaints(session, entry, index + 1, seen, previous);
        if LegalBranch(entry.core.branch) {
          branches := branches + {entry.core.branch};
        }
        previous := entry.entryHash;
        seen := seen + {entry.core.id};
      }
      assert entries[..|entries|] == entries;
    }

    /** Decides whether a session file is intact. Its report is complete: it accepts exactly the
        intact files and quotes the first complaints about any other. */
    method Verify(session: string) returns (r: Result<Report, LedgerError>)
      ensures Size(session) > MAX_LEDGER_BYTES ==> r == Err(TooLarge)
      ensures Size(session) <= MAX_LEDGER_BYTES ==>
                && r.Ok?
                && var report, entries := r.value, Lines(session);
                   && (report.ok <==> Intact(session, entries))
                   && report.count == |entries|
                   && report.lastHash == LastHash(entries)
                   && report.lastId == (if entries == [] then None else Some(entries[|entries| - 1].core.id))
                   && report.branches == BranchesOf(entries)
                   && report.errors <= AllComplaints(session, entries)
                   && |report.errors| == (if |AllComplaints(session, entries)| < MAX_REPORTED_ERRORS
                                          then |AllComplaints(session, entries)| else MAX_REPORTED_ERRORS)
    {
      if Size(session) > MAX_LEDGER_BYTES {
        return Err(TooLarge);
      }
      var entries := Lines(session);
      var errors, previous, branches := Scan(session, entries);
      NoComplaintsMeansIntact(session, entries);
      r := Ok(Report(
        |entries|, branches, if entries == [] then None else Some(entries[|entries| - 1].core.id),
        previous, errors == [],
        if |errors| <= MAX_REPORTED_ERRORS then errors else errors[..MAX_REPORTED_ERRORS]));
    }

    method IndexById(entries: seq<Entry>) returns (byId: map<EntryId, Entry>)
      ensures forall id :: Lookup(entries, id) == if id in byId then Some(byId[id]) else None
    {
      byId := map[];
      for n := 0 to |entries|
        invariant forall id :: Lookup(entries[..n], id) == if id in byId then Some(byId[id]) else None
      {
        assert entries[..n + 1][..n] == entries[..n];
        byId := byId[entries[n].core.id := entries[n]];
      }
      assert entries[..|entries|] == entries;
    }

    /** Appends one entry below the current tail, or changes nothing. `payloadBytes` and
        `lineBytes` are the encoded sizes of the payload and of the new line. */
    method Append(session: string, call: AppendCall, payloadBytes: nat, lineBytes: nat)
      returns (r: Result<Entry, LedgerError>)
      modifies this
      ensures r.Ok? ==> payloadBytes <= MAX_PAYLOAD_BYTES && old(Size(session)) <= MAX_LEDGER_BYTES
      ensures payloadBytes <= MAX_PAYLOAD_BYTES && old(Size(session)) <= MAX_LEDGER_BYTES ==>
                r == NewEntry(session, old(Lines(session)), call, old(Size(session)) + lineBytes <= MAX_LEDGER_BYTES)
      ensures r.Ok? ==> files == old(files)[session := old(Lines(session)) + [r.value]]
                        && sizes == old(sizes)[session := old(Size(session)) + lineBytes]
      ensures r.Err? ==> files == old(files) && sizes == old(sizes)
    {
      if call.kind.UnknownType? || call.origin.UnknownOrigin? {
        return Err(BadArgument);
      }
      if payloadBytes > MAX_PAYLOAD_BYTES {
        return Err(TooLarge);
      }
      if (call.parent.Some? && !LegalId(call.parent.value)) || (call.branch.Some? && !LegalBranch(call.branch.value)) {
        return Err(BadArgument);
      }
      if Size(session) > MAX_LEDGER_BYTES {
        return Err(TooLarge);
      }
      var entries := Lines(session);
      var byId := IndexById(entries);
      if call.parent.Some? && call.parent.value !in byId {
        return Err(UnknownParent);
      }
      var parent := call.parent;
      if parent.None? && entries != [] && entries[|entries| - 1].core.id != OtherId("") {
        parent := Some(entries[|entries| - 1].core.id);
      }
      var branch := Main;
      if call.branch.Some? {
        branch := call.branch.value;
      } else if parent.Some? && parent.value in byId && byId[parent.value].core.branch != OtherBranch("") {
        branch := byId[parent.value].core.branch;
      }
      if !LegalBranch(branch) {
        return Err(InheritedBadBranch);
      }
      var core := Core(
        SCHEMA_VERSION, call.newId, session, |entries| + 1,
        if parent.Some? then ParentId(parent.value) else NoParent,
        branch, call.kind, call.origin, call.ts, call.payload,
        if entries == [] then NoHash else entries[|entries| - 1].entryHash);
      if Size(session) + lineBytes > MAX_LEDGER_BYTES {
        return Err(TooLarge);
      }
      var entry := Entry(core, Sha256(core));
      sizes := sizes[session := Size(session) + lineBytes];
      files := files[session := entries + [entry]];
      r := Ok(entry);
    }
  }
}
