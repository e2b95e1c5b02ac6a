/** The conversation tree of a session ledger: parent links, the single root, and branches. */
module LedgerTree {
  import opened SessionLedger

  /** Entry `k` is the parent of entry `i`. */
  ghost predicate IsParent(entries: seq<Entry>, i: nat, k: nat) {
    k < i < |entries| && entries[i].core.parent == ParentId(entries[k].core.id)
  }

  /** In an intact file every parent link leads to exactly one entry, an earlier one. */
  lemma ParentExists(session: string, entries: seq<Entry>, i: nat)
    requires Intact(session, entries) && i < |entries| && !entries[i].core.parent.NoParent?
    ensures exists k: nat :: IsParent(entries, i, k)
    ensures forall k: nat, m: nat :: IsParent(entries, i, k) && IsParent(entries, i, m) ==> k == m
  {
    assert EntryInOrder(session, entries, i);
    var j :| 0 <= j < i && entries[j].core.id == entries[i].core.parent.id;
    assert IsParent(entries, i, j);
    forall k: nat, m: nat | IsParent(entries, i, k) && IsParent(entries, i, m)
      ensures k == m
    {
      assert EntryInOrder(session, entries, k) && EntryInOrder(session, entries, m);
    }
  }

  /** Following parent links from entry `i` until there is none; each link goes back in time,
      so this terminates. */
  ghost function Ancestry(session: string, entries: seq<Entry>, i: nat): (path: seq<nat>)
    requires Intact(session, entries) && i < |entries|
    ensures |path| > 0 && path[0] == i
    ensures forall n :: 0 <= n < |path| ==> path[n] < |entries|
    ensures forall n :: 0 <= n < |path| - 1 ==> IsParent(entries, path[n], path[n + 1])
    ensures entries[path[|path| - 1]].core.parent.NoParent?
    decreases i
  {
    if entries[i].core.parent.NoParent? then [i]
    else
      ParentExists(session, entries, i);
      var k: nat :| IsParent(entries, i, k);
      [i] + Ancestry(session, entries, k)
  }

  ghost predicate SingleRoot(entries: seq<Entry>) {
    forall i :: 0 <= i < |entries| ==> (entries[i].core.parent.NoParent? <==> i == 0)
  }

  lemma {:induction false} BuiltLedgersHaveOneRoot(session: string, calls: seq<Call>)
    requires FreshIds(calls)
    ensures SingleRoot(Replay(session, calls))
  {
    if calls != [] {
      var n := |calls| - 1;
      var init := calls[..n];
      var before := Replay(session, init);
      BuiltLedgersHaveOneRoot(session, init);
      BuiltLedgersAreIntact(session, init);
      if before == [] {
        LookupMeaning(before, IdOf(calls[n]));
      } else {
        assert EntryInOrder(session, before, |before| - 1);
      }
    }
  }

  /** From any entry of a built ledger, parent links lead to the first entry, the only root. */
  lemma EveryPathEndsAtTheFirstEntry(session: string, calls: seq<Call>, i: nat)
    requires FreshIds(calls) && i < |Replay(session, calls)|
    ensures Intact(session, Replay(session, calls))
    ensures var path := Ancestry(session, Replay(session, calls), i);
            path[|path| - 1] == 0
  {
    BuiltLedgersAreIntact(session, calls);
    BuiltLedgersHaveOneRoot(session, calls);
  }

  // ---------------------------------------------------------------- branches

  ghost predicate BranchUsed(entries: seq<Entry>, branch: BranchId) {
    exists k :: 0 <= k < |entries| && entries[k].core.branch == branch
  }

  /** An entry either stays on its parent's branch or opens a new one with a branch summary. */
  ghost predicate BranchesProperly(entries: seq<Entry>, i: nat)
    requires i < |entries|
  {
    if i == 0 then entries[0].core.branch.Main?
    else
      || (exists k: nat :: IsParent(entries, i, k) && entries[k].core.branch == entries[i].core.branch)
      || (entries[i].core.kind.BranchSummary? && !BranchUsed(entries[..i], entries[i].core.branch))
  }

  ghost predicate BranchForest(entries: seq<Entry>) {
    forall i :: 0 <= i < |entries| ==> BranchesProperly(entries, i)
  }

  /** Branch ids come only from `create_branch`, which draws a fresh uuid each time. */
  ghost predicate BranchDiscipline(calls: seq<Call>) {
    && (forall i :: 0 <= i < |calls| && calls[i].Append? ==> calls[i].call.branch.None?)
    && (forall i :: 0 <= i < |calls| && calls[i].CreateBranch? ==> calls[i].newBranch.Br?)
    && (forall i, j :: 0 <= i < j < |calls| && calls[i].CreateBranch? && calls[j].CreateBranch?
                       ==> calls[i].newBranch != calls[j].newBranch)
  }

  ghost predicate CameFromCalls(entries: seq<Entry>, calls: seq<Call>) {
    forall k :: 0 <= k < |entries| && entries[k].core.branch.Br? ==>
      exists i :: 0 <= i < |calls| && calls[i].CreateBranch? && calls[i].newBranch == entries[k].core.branch
  }

  lemma AppendBranches(session: string, entries: seq<Entry>, c: AppendCall, fits: bool)
    requires Intact(session, entries) && BranchForest(entries)
    requires NewEntry(session, entries, c, fits).Ok?
    requires c.branch.Some? ==> c.parent.Some? && c.kind.BranchSummary? && !BranchUsed(entries, c.branch.value)
    ensures var e := NewEntry(session, entries, c, fits).value;
            && BranchForest(entries + [e])
            && (c.branch.None? ==> e.core.branch.Main? || BranchUsed(entries, e.core.branch))
            && (c.branch.Some? ==> e.core.branch == c.branch.value)
  {
    var e := NewEntry(session, entries, c, fits).value;
    var longer, n := entries + [e], |entries|;
    forall i | 0 <= i < n
      ensures BranchesProperly(longer, i)
    {
      assert BranchesProperly(entries, i);
      assert longer[..i] == entries[..i];
      if i > 0 {
        if k: nat :| IsParent(entries, i, k) && entries[k].core.branch == entries[i].core.branch {
          assert IsParent(longer, i, k);
        }
      }
    }
    assert longer[..n] == entries;
    if n > 0 {
      var parent := ResolveParent(entries, c.parent);
      assert EntryInOrder(session, entries, n - 1);
      LookupMeaning(entries, parent.value);
      assert entries[n - 1].core.id in IdsOf(entries);
      var found := Lookup(entries, parent.value).value;
      var k :| 0 <= k < n && entries[k] == found;
      assert EntryInOrder(session, entries, k);
      assert IsParent(longer, n, k);
      if c.branch.None? {
        assert longer[k].core.branch == e.core.branch;
      }
    }
  }

  lemma {:induction false} BuiltLedgersBranchProperly(session: string, calls: seq<Call>)
    requires FreshIds(calls) && BranchDiscipline(calls)
    ensures BranchForest(Replay(session, calls))
    ensures CameFromCalls(Replay(session, calls), calls)
  {
    if calls != [] {
      var n := |calls| - 1;
      var init, last := calls[..n], calls[n];
      var before, after := Replay(session, init), Replay(session, calls);
      BuiltLedgersBranchProperly(session, init);
      BuiltLedgersAreIntact(session, init);
      if Attempt(session, before, last).Ok? {
        match last
        case Append(c, fits) => AppendBranches(session, before, c, fits);
        case CreateBranch(parent, title, summary, origin, newId, newBranch, ts, fits) =>
          AppendBranches(session, before, BranchCall(parent, title, summary, origin, newId, newBranch, ts), fits);
      }
      forall k | 0 <= k < |after| && after[k].core.branch.Br?
        ensures exists i :: 0 <= i < |calls| && calls[i].CreateBranch? && calls[i].newBranch == after[k].core.branch
      {
        if k < |before| {
          var i :| 0 <= i < n && init[i].CreateBranch? && init[i].newBranch == before[k].core.branch;
          assert calls[i].CreateBranch?;
        } else if last.Append? {
          var j :| 0 <= j < |before| && before[j].core.branch == after[k].core.branch;
          var i :| 0 <= i < n && init[i].CreateBranch? && init[i].newBranch == before[j].core.branch;
          assert calls[i].CreateBranch?;
        } else {
          assert calls[n].newBranch == after[k].core.branch;
        }
      }
    }
  }

  /** The top of a branch is its first entry. */
  ghost predicate IsTop(entries: seq<Entry>, branch: BranchId, t: nat) {
    t < |entries| && entries[t].core.branch == branch && !BranchUsed(entries[..t], branch)
  }

  /** The climb from an entry, following parent links, stays on the entry's branch up to step
      `n`, where it stands on the branch's top: its branch summary, or the root. */
  ghost predicate ReachesTop(session: string, entries: seq<Entry>, i: nat, n: nat)
    requires Intact(session, entries) && i < |entries|
  {
    var branch := entries[i].core.branch;
    var path := Ancestry(session, entries, i);
    && n < |path|
    && IsTop(entries, branch, path[n])
    && (path[n] == 0 || entries[path[n]].core.kind.BranchSummary?)
    && forall m :: 0 <= m <= n ==> entries[path[m]].core.branch == branch
  }

  lemma ClimbOneStep(session: string, entries: seq<Entry>, i: nat, k: nat, n: nat)
    requires Intact(session, entries) && IsParent(entries, i, k)
    requires entries[k].core.branch == entries[i].core.branch && ReachesTop(session, entries, k, n)
    ensures ReachesTop(session, entries, i, n + 1)
  {
    var path, above := Ancestry(session, entries, i), Ancestry(session, entries, k);
    ParentExists(session, entries, i);
    assert IsParent(entries, i, path[1]);
    assert path == [i] + above;
    assert path[n + 1] == above[n];
    forall m | 0 <= m <= n + 1
      ensures entries[path[m]].core.branch == entries[i].core.branch
    {
      assert m > 0 ==> path[m] == above[m - 1];
    }
  }

  lemma {:induction false} ClimbStaysOnBranch(session: string, entries: seq<Entry>, i: nat)
    requires Intact(session, entries) && SingleRoot(entries) && BranchForest(entries)
    requires i < |entries|
    ensures exists n: nat :: ReachesTop(session, entries, i, n)
    decreases i
  {
    var branch := entries[i].core.branch;
    assert BranchesProperly(entries, i);
    if k: nat :| i > 0 && IsParent(entries, i, k) && entries[k].core.branch == branch {
      ClimbStaysOnBranch(session, entries, k);
      var n: nat :| ReachesTop(session, entries, k, n);
      ClimbOneStep(session, entries, i, k, n);
    } else {
      assert IsTop(entries, branch, i);
      assert ReachesTop(session, entries, i, 0);
    }
  }

  /** When branch ids come only from `create_branch`, every branch of a built ledger is one
      connected subtree, and its top is a branch summary unless it is the root itself. */
  lemma BranchesAreConnected(session: string, calls: seq<Call>, i: nat)
    requires FreshIds(calls) && BranchDiscipline(calls) && i < |Replay(session, calls)|
    ensures Intact(session, Replay(session, calls))
    ensures exists n: nat :: ReachesTop(session, Replay(session, calls), i, n)
  {
    BuiltLedgersAreIntact(session, calls);
    BuiltLedgersHaveOneRoot(session, calls);
    BuiltLedgersBranchProperly(session, calls);
    ClimbStaysOnBranch(session, Replay(session, calls), i);
  }
}
