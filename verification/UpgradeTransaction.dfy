/** Applying an upgrade to the target tree as a transaction: backup, copy with a hash check
    after every write, and rollback. */
module UpgradeTransaction {
  import opened Common

  type Path = string
  type Content = string
  type Tree = map<Path, Content>

  /** One changed file as the owner approved it; `before` is absent for a new file. */
  datatype Record = Record(path: Path, before: Option<Fingerprint<Content>>, after: Fingerprint<Content>)

  datatype BackupEntry = BackupEntry(path: Path, existed: bool)

  datatype Backup = Backup(manifest: seq<BackupEntry>, files: Tree)

  /** What one `atomic_copy` from the candidate tree does: raise before replacing the file, put
      the content the candidate file holds at that moment, or put it and then raise. */
  datatype CopyOutcome = RaisesFirst | Copies(content: Content) | CopiesThenRaises(content: Content)

  datatype ApplyError = BackupExists | CopyFailed(index: nat) | HashMismatch(index: nat)

  function BackupOf(target: Tree, records: seq<Record>): Backup {
    if records == [] then Backup([], map[])
    else
      var earlier := BackupOf(target, records[..|records| - 1]);
      var path := records[|records| - 1].path;
      Backup(earlier.manifest + [BackupEntry(path, path in target)],
             if path in target then earlier.files[path := target[path]] else earlier.files)
  }

  /** The tree with the file written, or removed. */
  function Put(tree: Tree, path: Path, content: Option<Content>): Tree {
    if content.Some? then tree[path := content.value] else tree - {path}
  }

  /** What a rollback puts back for one entry: nothing for a file that was absent, and no write at
      all for a file whose copy is missing from the backup. */
  function SavedContent(backup: Backup, entry: BackupEntry): Option<Content> {
    if entry.existed && entry.path in backup.files then Some(backup.files[entry.path]) else None
  }

  function Restore(target: Tree, backup: Backup, entry: BackupEntry): Tree {
    if entry.existed && SavedContent(backup, entry).None? then target
    else Put(target, entry.path, SavedContent(backup, entry))
  }

  /** The target after entries `n`, `n + 1`, ... have been restored, last one first. */
  function RolledBack(target: Tree, backup: Backup, n: nat): Tree
    requires n <= |backup.manifest|
    decreases |backup.manifest| - n
  {
    if n == |backup.manifest| then target
    else Restore(RolledBack(target, backup, n + 1), backup, backup.manifest[n])
  }

  predicate Accepted(record: Record, outcome: CopyOutcome) {
    outcome.Copies? && Fingerprint(outcome.content) == record.after
  }

  /** The target after the first `n` copies have gone through. */
  function Written(target: Tree, records: seq<Record>, outcomes: seq<CopyOutcome>, n: nat): Tree
    requires n <= |records| == |outcomes|
    requires forall i :: 0 <= i < n ==> outcomes[i].Copies?
  {
    if n == 0 then target
    else Written(target, records, outcomes, n - 1)[records[n - 1].path := outcomes[n - 1].content]
  }

  function PathsOf(records: seq<Record>): (r: seq<Path>)
    ensures |r| == |records| && forall i :: 0 <= i < |r| ==> r[i] == records[i].path
  {
    seq(|records|, i requires 0 <= i < |records| => records[i].path)
  }

  lemma {:induction false} BackupMeaning(target: Tree, records: seq<Record>)
    ensures var b := BackupOf(target, records);
            && |b.manifest| == |records|
            && (forall i :: 0 <= i < |records| ==>
                  b.manifest[i] == BackupEntry(records[i].path, records[i].path in target))
            && (forall i :: 0 <= i < |records| && records[i].path in target ==>
                  records[i].path in b.files && b.files[records[i].path] == target[records[i].path])
            && (forall p :: p in b.files ==> p in target && b.files[p] == target[p])
  {
    if records != [] {
      BackupMeaning(target, records[..|records| - 1]);
    }
  }

  /** Two trees hold the same file, or both lack it. */
  predicate SameAt(a: Tree, b: Tree, path: Path) {
    (path in a <==> path in b) && (path in a ==> a[path] == b[path])
  }

  lemma SameEverywhere(a: Tree, b: Tree)
    requires forall path :: SameAt(a, b, path)
    ensures a == b
  {
    assert forall path :: path in a ==> SameAt(a, b, path);
    assert forall path :: path in b ==> SameAt(a, b, path);
    assert a.Keys == b.Keys;
  }

  /** Restoring one backup entry puts the original file back and touches nothing else. */
  lemma RestoreOne(original: Tree, changed: Tree, records: seq<Record>, n: nat)
    requires n < |records|
    ensures n < |BackupOf(original, records).manifest|
    ensures var t := Restore(changed, BackupOf(original, records), BackupOf(original, records).manifest[n]);
            && SameAt(t, original, records[n].path)
            && (forall path :: path != records[n].path ==> SameAt(t, changed, path))
  {
    BackupMeaning(original, records);
  }

  /** Rolling back entries `n` and later restores exactly their paths. */
  lemma {:induction false} RolledBackMeaning(original: Tree, changed: Tree, records: seq<Record>, n: nat, path: Path)
    requires n <= |records|
    ensures |BackupOf(original, records).manifest| == |records|
    ensures var t := RolledBack(changed, BackupOf(original, records), n);
            if (exists i :: n <= i < |records| && records[i].path == path) then SameAt(t, original, path)
            else SameAt(t, changed, path)
    decreases |records| - n
  {
    BackupMeaning(original, records);
    if n < |records| {
      RolledBackMeaning(original, changed, records, n + 1, path);
      RestoreOne(original, RolledBack(changed, BackupOf(original, records), n + 1), records, n);
    }
  }

  /** Rolling back from any state that differs from the original only at record paths restores
      the original tree exactly, new files and repeated paths included. */
  lemma RollbackRestores(original: Tree, changed: Tree, records: seq<Record>)
    requires forall path :: path !in PathsOf(records) ==> SameAt(changed, original, path)
    ensures |BackupOf(original, records).manifest| == |records|
    ensures RolledBack(changed, BackupOf(original, records), 0) == original
  {
    BackupMeaning(original, records);
    forall path
      ensures SameAt(RolledBack(changed, BackupOf(original, records), 0), original, path)
    {
      RolledBackMeaning(original, changed, records, 0, path);
      if path in PathsOf(records) {
        var i :| 0 <= i < |records| && PathsOf(records)[i] == path;
        assert records[i].path == path;
      }
    }
    SameEverywhere(RolledBack(changed, BackupOf(original, records), 0), original);
  }

  /** What one copy leaves behind, whether or not it then raises. */
  function AfterCopy(target: Tree, record: Record, outcome: CopyOutcome): Tree {
    if outcome.RaisesFirst? then target else target[record.path := outcome.content]
  }

  /** A copy loop that stops at record `i`, with or without replacing that file, changed no
      path outside the records: rolling back undoes all of it. */
  lemma PartialApplyIsUndone(original: Tree, records: seq<Record>, outcomes: seq<CopyOutcome>, i: nat)
    requires i < |records| == |outcomes|
    requires forall k :: 0 <= k < i ==> outcomes[k].Copies?
    ensures |BackupOf(original, records).manifest| == |records|
    ensures var partial := AfterCopy(Written(original, records, outcomes, i), records[i], outcomes[i]);
            RolledBack(partial, BackupOf(original, records), 0) == original
  {
    var partial := Written(original, records, outcomes, i);
    forall path | path !in PathsOf(records)
      ensures SameAt(partial, original, path) && records[i].path != path
    {
      forall k | 0 <= k < |records|
        ensures records[k].path != path
      {
        assert PathsOf(records)[k] in PathsOf(records);
      }
      WrittenElsewhere(original, records, outcomes, i, path);
    }
    RollbackRestores(original, AfterCopy(partial, records[i], outcomes[i]), records);
  }

  lemma {:induction false} WrittenElsewhere(
    target: Tree, records: seq<Record>, outcomes: seq<CopyOutcome>, n: nat, path: Path)
    requires n <= |records| == |outcomes|
    requires forall i :: 0 <= i < n ==> outcomes[i].Copies?
    requires forall i :: 0 <= i < n ==> records[i].path != path
    ensures SameAt(Written(target, records, outcomes, n), target, path)
  {
    if n > 0 {
      WrittenElsewhere(target, records, outcomes, n - 1, path);
    }
  }

  /** After all copies, a path no later record overwrites holds exactly the approved content. */
  lemma {:induction false} WrittenAt(target: Tree, records: seq<Record>, outcomes: seq<CopyOutcome>, n: nat, i: nat)
    requires i < n <= |records| == |outcomes|
    requires forall k :: 0 <= k < n ==> outcomes[k].Copies? && Accepted(records[k], outcomes[k])
    requires forall k :: i < k < n ==> records[k].path != records[i].path
    ensures var t := Written(target, records, outcomes, n);
            records[i].path in t && Fingerprint(t[records[i].path]) == records[i].after
  {
    if n - 1 > i {
      WrittenAt(target, records, outcomes, n - 1, i);
    }
  }

  predicate AllAccepted(records: seq<Record>, outcomes: seq<CopyOutcome>)
    requires |records| == |outcomes|
  {
    forall i :: 0 <= i < |records| ==> outcomes[i].Copies? && Accepted(records[i], outcomes[i])
  }

  /** The target when the copy loop has accepted `n` records and stopped, at the end or at a copy
      it did not accept. */
  function AfterLoop(target: Tree, records: seq<Record>, outcomes: seq<CopyOutcome>, n: nat): Tree
    requires n <= |records| == |outcomes|
    requires forall i :: 0 <= i < n ==> outcomes[i].Copies?
  {
    var written := Written(target, records, outcomes, n);
    if n == |records| then written else AfterCopy(written, records[n], outcomes[n])
  }

  predicate FirstRejected(records: seq<Record>, outcomes: seq<CopyOutcome>, i: nat)
    requires i < |records| == |outcomes|
  {
    !Accepted(records[i], outcomes[i]) && forall k :: 0 <= k < i ==> Accepted(records[k], outcomes[k])
  }

  /** The last record that names the same path as record `i`. */
  lemma {:induction false} LastFor(records: seq<Record>, i: nat, n: nat) returns (j: nat)
    requires i < n <= |records|
    ensures i <= j < n && records[j].path == records[i].path
    ensures forall k :: j < k < n ==> records[k].path != records[i].path
  {
    if n - 1 == i || records[n - 1].path == records[i].path {
      j := n - 1;
    } else {
      j := LastFor(records, i, n - 1);
    }
  }

  predicate HasApprovedContent(tree: Tree, record: Record) {
    record.path in tree && Fingerprint(tree[record.path]) == record.after
  }

  predicate Consistent(records: seq<Record>) {
    forall i, j :: 0 <= i < j < |records| && records[i].path == records[j].path ==> records[i].after == records[j].after
  }

  predicate EveryRecordHolds(tree: Tree, records: seq<Record>) {
    forall i :: 0 <= i < |records| ==> HasApprovedContent(tree, records[i])
  }

  lemma LastRecordHolds(target: Tree, records: seq<Record>, outcomes: seq<CopyOutcome>, i: nat) returns (j: nat)
    requires i < |records| == |outcomes| && AllAccepted(records, outcomes)
    ensures i <= j < |records| && records[j].path == records[i].path
    ensures HasApprovedContent(Written(target, records, outcomes, |records|), records[j])
  {
    j := LastFor(records, i, |records|);
    WrittenAt(target, records, outcomes, |records|, j);
  }

  /** A successful apply gives every record its approved content exactly when no two records
      demand different contents of one path. */
  lemma SuccessIsExact(target: Tree, records: seq<Record>, outcomes: seq<CopyOutcome>)
    requires |records| == |outcomes| && AllAccepted(records, outcomes)
    ensures EveryRecordHolds(Written(target, records, outcomes, |records|), records) <==> Consistent(records)
  {
    var t := Written(target, records, outcomes, |records|);
    if Consistent(records) {
      forall i | 0 <= i < |records|
        ensures HasApprovedContent(t, records[i])
      {
        var j := LastRecordHolds(target, records, outcomes, i);
      }
    }
    if EveryRecordHolds(t, records) {
      forall i, j | 0 <= i < j < |records| && records[i].path == records[j].path
        ensures records[i].after == records[j].after
      {
        assert HasApprovedContent(t, records[i]) && HasApprovedContent(t, records[j]);
      }
    }
  }

  /** A successful apply touches nothing but the record paths. */
  lemma OtherPathsUntouched(target: Tree, records: seq<Record>, outcomes: seq<CopyOutcome>, path: Path)
    requires |records| == |outcomes| && AllAccepted(records, outcomes)
    requires path !in PathsOf(records)
    ensures SameAt(Written(target, records, outcomes, |records|), target, path)
  {
    forall i | 0 <= i < |records|
      ensures records[i].path != path
    {
      assert PathsOf(records)[i] in PathsOf(records);
    }
    WrittenElsewhere(target, records, outcomes, |records|, path);
  }

  class UpgradeTarget {
    var files: Tree
    var backups: map<string, Backup>

    constructor (files: Tree)
      ensures this.files == files && backups == map[]
    {
      this.files, backups := files, map[];
    }

    method BackupTargets(requestId: string, records: seq<Record>) returns (r: Result<Backup, ApplyError>)
      modifies this`backups
      ensures requestId in old(backups) ==> r == Err(BackupExists) && backups == old(backups)
      ensures requestId !in old(backups) ==>
                r == Ok(BackupOf(files, records)) && backups == old(backups)[requestId := BackupOf(files, records)]
    {
      if requestId in backups {
        return Err(BackupExists);
      }
      var manifest, saved: Tree := [], map[];
      for i := 0 to |records|
        invariant Backup(manifest, saved) == BackupOf(files, records[..i])
      {
        assert records[..i + 1][..i] == records[..i];
        var path := records[i].path;
        if path in files {
          saved := saved[path := files[path]];
        }
        manifest := manifest + [BackupEntry(path, path in files)];
      }
      assert records[..|records|] == records;
      backups := backups[requestId := Backup(manifest, saved)];
      r := Ok(Backup(manifest, saved));
    }

    method Rollback(backup: Backup)
      modifies this`files
      ensures files == RolledBack(old(files), backup, 0)
    {
      var n := |backup.manifest|;
      while n > 0
        invariant 0 <= n <= |backup.manifest|
        invariant files == RolledBack(old(files), backup, n)
      {
        n := n - 1;
        var entry := backup.manifest[n];
        if entry.existed {
          if entry.path in backup.files {
            files := files[entry.path := backup.files[entry.path]];
          }
        } else {
          files := files - {entry.path};
        }
      }
    }

    /** One atomic copy and the hash check after it. */
    method CopyOne(record: Record, outcome: CopyOutcome) returns (accepted: bool)
      modifies this`files
      ensures accepted <==> Accepted(record, outcome)
      ensures files == AfterCopy(old(files), record, outcome)
    {
      if outcome.RaisesFirst? {
        return false;
      }
      files := files[record.path := outcome.content];
      accepted := !outcome.CopiesThenRaises? && Fingerprint(outcome.content) == record.after;
    }

    /** The copy loop: it stops at the first copy that is not accepted. */
    method CopyRecords(records: seq<Record>, outcomes: seq<CopyOutcome>) returns (applied: seq<Path>)
      requires |outcomes| == |records|
      modifies this`files
      ensures |applied| <= |records| && applied == PathsOf(records)[..|applied|]
      ensures forall k :: 0 <= k < |applied| ==> outcomes[k].Copies? && Accepted(records[k], outcomes[k])
      ensures |applied| < |records| ==> !Accepted(records[|applied|], outcomes[|applied|])
      ensures files == AfterLoop(old(files), records, outcomes, |applied|)
    {
      applied := [];
      for i := 0 to |records|
        invariant applied == PathsOf(records)[..i]
        invariant forall k :: 0 <= k < i ==> outcomes[k].Copies? && Accepted(records[k], outcomes[k])
        invariant files == Written(old(files), records, outcomes, i)
      {
        var accepted := CopyOne(records[i], outcomes[i]);
        if !accepted {
          return;
        }
        applied := applied + [records[i].path];
      }
    }

    /** All or nothing: whatever a copy does, wherever the failure, the target either receives
        every accepted copy or is exactly what it was. */
    method ApplyFiles(requestId: string, records: seq<Record>, outcomes: seq<CopyOutcome>)
      returns (r: Result<seq<Path>, ApplyError>)
      requires |outcomes| == |records|
      modifies this
      ensures r.Ok? <==> requestId !in old(backups) && AllAccepted(records, outcomes)
      ensures r.Ok? ==> r.value == PathsOf(records) && files == Written(old(files), records, outcomes, |records|)
      ensures r.Err? ==> files == old(files)
      ensures requestId in old(backups) ==> r == Err(BackupExists) && backups == old(backups)
      ensures requestId !in old(backups) ==> backups == old(backups)[requestId := BackupOf(old(files), records)]
      ensures requestId !in old(backups) && r.Err? ==>
                exists i :: 0 <= i < |records| && FirstRejected(records, outcomes, i) &&
                            r.error == (if outcomes[i].Copies? then HashMismatch(i) else CopyFailed(i))
    {
      var saved := BackupTargets(requestId, records);
      if saved.Err? {
        return Err(saved.error);
      }
      var applied := CopyRecords(records, outcomes);
      var i := |applied|;
      if i < |records| {
        PartialApplyIsUndone(old(files), records, outcomes, i);
        Rollback(saved.value);
        assert FirstRejected(records, outcomes, i);
        return Err(if outcomes[i].Copies? then HashMismatch(i) else CopyFailed(i));
      }
      r := Ok(applied);
    }
  }
}
