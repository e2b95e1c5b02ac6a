/** Staging an upgrade candidate: every proposed file is checked before any file is written, and
    the records the owner will approve describe exactly the tree that was written. */
module UpgradeCandidate {
  import opened Common
  import opened UpgradeTransaction

  const TESTS_PREFIX: Path := "app/tests/"

  datatype Plan = Plan(goal: string, scopes: set<string>, allowed: set<Path>, maxFiles: int, maxChangedLines: int)

  /** One file block of the proposal. `path` is the normalized path, absent when it is not a
      legal repository path; `properTestName` and `documentation` classify it; `clean` says that
      size, syntax and redline scans pass; `lines` is its diff size. */
  datatype Change = Change(
    path: Option<Path>, content: Content, properTestName: bool, documentation: bool, clean: bool, lines: nat)

  datatype StageError = NoChanges | TooManyFiles | BadChange(index: nat) | MissingTest | TooManyLines

  predicate IsTest(path: Path) {
    TESTS_PREFIX <= path
  }

  predicate Acceptable(plan: Plan, baseline: Tree, change: Change) {
    && change.path.Some? && change.path.value in plan.allowed
    && change.clean
    && (IsTest(change.path.value) ==> change.path.value !in baseline && change.properTestName)
  }

  function RecordOf(baseline: Tree, change: Change): Record
    requires change.path.Some?
  {
    var path := change.path.value;
    Record(path, if path in baseline then Some(Fingerprint(baseline[path])) else None, Fingerprint(change.content))
  }

  predicate AllAcceptable(plan: Plan, baseline: Tree, changes: seq<Change>) {
    forall i :: 0 <= i < |changes| ==> changes[i].path.Some? && Acceptable(plan, baseline, changes[i])
  }

  function RecordsOf(baseline: Tree, changes: seq<Change>): (r: seq<Record>)
    requires forall i :: 0 <= i < |changes| ==> changes[i].path.Some?
    ensures |r| == |changes|
    ensures forall i :: 0 <= i < |r| ==> r[i] == RecordOf(baseline, changes[i])
  {
    seq(|changes|, i requires 0 <= i < |changes| => RecordOf(baseline, changes[i]))
  }

  function TotalLines(changes: seq<Change>): nat {
    if changes == [] then 0 else TotalLines(changes[..|changes| - 1]) + changes[|changes| - 1].lines
  }

  predicate HasNewTest(changes: seq<Change>) {
    exists i :: 0 <= i < |changes| && changes[i].path.Some? && IsTest(changes[i].path.value)
  }

  predicate OnlyDocumentation(changes: seq<Change>) {
    forall i :: 0 <= i < |changes| ==> changes[i].documentation
  }

  /** Exactly the proposals that may be staged. */
  predicate Stageable(plan: Plan, baseline: Tree, changes: seq<Change>) {
    && changes != [] && |changes| <= plan.maxFiles
    && AllAcceptable(plan, baseline, changes)
    && (OnlyDocumentation(changes) || HasNewTest(changes))
    && TotalLines(changes) <= plan.maxChangedLines
  }

  function Overlay(repo: Tree, changes: seq<Change>): Tree
    requires forall i :: 0 <= i < |changes| ==> changes[i].path.Some?
  {
    if changes == [] then repo
    else
      var last := changes[|changes| - 1];
      Overlay(repo, changes[..|changes| - 1])[last.path.value := last.content]
  }

  /** A record that no later record of the same path follows describes the tree. */
  predicate Describes(records: seq<Record>, tree: Tree) {
    forall i :: 0 <= i < |records| && IsLast(records, i) ==> HasApprovedContent(tree, records[i])
  }

  predicate IsLast(records: seq<Record>, i: nat)
    requires i < |records|
  {
    forall k :: i < k < |records| ==> records[k].path != records[i].path
  }

  /** The records an owner approves describe the staged tree, whatever the workspace held. */
  lemma {:induction false} RecordsDescribeOverlay(baseline: Tree, repo: Tree, changes: seq<Change>)
    requires forall i :: 0 <= i < |changes| ==> changes[i].path.Some?
    ensures Describes(RecordsOf(baseline, changes), Overlay(repo, changes))
  {
    if changes != [] {
      var init := changes[..|changes| - 1];
      RecordsDescribeOverlay(baseline, repo, init);
      var records, earlier := RecordsOf(baseline, changes), RecordsOf(baseline, init);
      forall i | 0 <= i < |records| && IsLast(records, i)
        ensures HasApprovedContent(Overlay(repo, changes), records[i])
      {
        if i < |earlier| {
          assert records[|earlier|].path != records[i].path;
          assert forall k :: 0 <= k < |earlier| ==> earlier[k] == records[k];
          assert IsLast(earlier, i);
        }
      }
    }
  }

  /** A path no change names keeps its content. */
  lemma {:induction false} OverlayElsewhere(repo: Tree, changes: seq<Change>, path: Path)
    requires forall i :: 0 <= i < |changes| ==> changes[i].path.Some? && changes[i].path.value != path
    ensures SameAt(Overlay(repo, changes), repo, path)
  {
    if changes != [] {
      OverlayElsewhere(repo, changes[..|changes| - 1], path);
    }
  }

  /** No stageable proposal rewrites an existing test or a file outside the approved scope. */
  lemma ProtectedFilesSurvive(plan: Plan, baseline: Tree, repo: Tree, changes: seq<Change>, path: Path)
    requires Stageable(plan, baseline, changes)
    requires (IsTest(path) && path in baseline) || path !in plan.allowed
    ensures SameAt(Overlay(repo, changes), repo, path)
  {
    forall i | 0 <= i < |changes|
      ensures changes[i].path.Some? && changes[i].path.value != path
    {
      assert Acceptable(plan, baseline, changes[i]);
    }
    OverlayElsewhere(repo, changes, path);
  }

  lemma OneMoreChange(plan: Plan, baseline: Tree, changes: seq<Change>, i: nat)
    requires i < |changes| && AllAcceptable(plan, baseline, changes[..i]) && Acceptable(plan, baseline, changes[i])
    ensures AllAcceptable(plan, baseline, changes[..i + 1])
    ensures RecordsOf(baseline, changes[..i + 1])
            == RecordsOf(baseline, changes[..i]) + [RecordOf(baseline, changes[i])]
    ensures TotalLines(changes[..i + 1]) == TotalLines(changes[..i]) + changes[i].lines
    ensures HasNewTest(changes[..i + 1]) <==> HasNewTest(changes[..i]) || IsTest(changes[i].path.value)
    ensures OnlyDocumentation(changes[..i + 1]) <==> OnlyDocumentation(changes[..i]) && changes[i].documentation
  {
    var before, after := changes[..i], changes[..i + 1];
    assert after[..i] == before && after[i] == changes[i];
    assert forall k :: 0 <= k < i ==> after[k] == before[k];
  }

  class CandidateWorkspace {
    var repo: Tree

    constructor (staged: Tree)
      ensures repo == staged
    {
      repo := staged;
    }

    method WriteChanges(changes: seq<Change>)
      requires forall i :: 0 <= i < |changes| ==> changes[i].path.Some?
      modifies this
      ensures repo == Overlay(old(repo), changes)
    {
      for i := 0 to |changes|
        invariant repo == Overlay(old(repo), changes[..i])
      {
        assert changes[..i + 1][..i] == changes[..i];
        repo := repo[changes[i].path.value := changes[i].content];
      }
      assert changes[..|changes|] == changes;
    }

    /** The loop only looks; nothing is written before every change has passed. */
    method PrepareChanges(plan: Plan, baseline: Tree, changes: seq<Change>) returns (r: Result<seq<Record>, StageError>)
      modifies this
      ensures r.Ok? <==> Stageable(plan, baseline, changes)
      ensures r.Ok? ==> r.value == RecordsOf(baseline, changes) && repo == Overlay(old(repo), changes)
      ensures r.Err? ==> repo == old(repo)
      ensures r.Err? && r.error.BadChange? ==>
                && r.error.index < |changes| && !Acceptable(plan, baseline, changes[r.error.index])
                && AllAcceptable(plan, baseline, changes[..r.error.index])
    {
      if changes == [] {
        return Err(NoChanges);
      }
      if |changes| > plan.maxFiles {
        return Err(TooManyFiles);
      }
      var records: seq<Record> := [];
      var total, newTest, allDocs := 0, false, true;
      for i := 0 to |changes|
        invariant repo == old(repo)
        invariant AllAcceptable(plan, baseline, changes[..i])
        invariant records == RecordsOf(baseline, changes[..i])
        invariant total == TotalLines(changes[..i])
        invariant newTest == HasNewTest(changes[..i])
        invariant allDocs == OnlyDocumentation(changes[..i])
      {
        var change := changes[i];
        if !Acceptable(plan, baseline, change) {
          return Err(BadChange(i));
        }
        OneMoreChange(plan, baseline, changes, i);
        newTest := newTest || IsTest(change.path.value);
        allDocs := allDocs && change.documentation;
        total := total + change.lines;
        records := records + [RecordOf(baseline, change)];
      }
      assert changes[..|changes|] == changes;
      if !allDocs && !newTest {
        return Err(MissingTest);
      }
      if total > plan.maxChangedLines {
        return Err(TooManyLines);
      }
      WriteChanges(changes);
      r := Ok(records);
    }
  }
}
