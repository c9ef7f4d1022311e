/** Delegation and revocation together: the lineage rows that delegate calls leave behind, and the
    walk over them before a commit. */
module DelegationLineage {
  import opened Wrappers
  import opened Delegation
  import GrantStore
  import Revocation

  ghost predicate DistinctIds(chain: seq<ExecutionGrant>) {
    forall i, j :: 0 <= i < j < |chain| ==> chain[i].grantId != chain[j].grantId
  }

  /** The rows the engine writes for a chain: one for every delegated grant, none for the root. */
  function Recorded(g: GrantStore.Grants, chain: seq<ExecutionGrant>): GrantStore.Grants {
    if |chain| <= 1 then g
    else
      var n := |chain| - 1;
      GrantStore.RecordLineage(Recorded(g, chain[..n]), chain[n].grantId, chain[n].parentId)
  }

  /** The store holds the row of every delegated grant of the chain. */
  ghost predicate HoldsRows(g: GrantStore.Grants, chain: seq<ExecutionGrant>) {
    forall i :: 1 <= i < |chain| ==>
      chain[i].grantId in g.lineage && g.lineage[chain[i].grantId] == Some(chain[i - 1].grantId)
  }

  ghost predicate RootRecorded(g: GrantStore.Grants, root: ExecutionGrant) {
    root.grantId in g.lineage && g.lineage[root.grantId] == None
  }

  lemma {:induction false} RowRecorded(g: GrantStore.Grants, chain: seq<ExecutionGrant>, i: nat)
    requires DistinctIds(chain) && 1 <= i < |chain|
    ensures chain[i].grantId in Recorded(g, chain).lineage
            && Recorded(g, chain).lineage[chain[i].grantId] == chain[i].parentId
    decreases |chain|
  {
    var n := |chain| - 1;
    if i < n {
      RowRecorded(g, chain[..n], i);
    }
  }

  lemma {:induction false} OtherRowsKept(g: GrantStore.Grants, chain: seq<ExecutionGrant>, id: string)
    requires forall i :: 1 <= i < |chain| ==> chain[i].grantId != id
    ensures id in Recorded(g, chain).lineage <==> id in g.lineage
    ensures id in g.lineage ==> Recorded(g, chain).lineage[id] == g.lineage[id]
    ensures Recorded(g, chain).slots == g.slots
    decreases |chain|
  {
    if |chain| > 1 {
      OtherRowsKept(g, chain[..|chain| - 1], id);
    }
  }

  lemma RecordedHoldsRows(g: GrantStore.Grants, chain: seq<ExecutionGrant>)
    requires Linked(chain) && DistinctIds(chain)
    ensures HoldsRows(Recorded(g, chain), chain) && Recorded(g, chain).slots == g.slots
    ensures RootRecorded(Recorded(g, chain), chain[0]) <==> RootRecorded(g, chain[0])
  {
    OtherRowsKept(g, chain, chain[0].grantId);
    forall i | 1 <= i < |chain|
      ensures chain[i].grantId in Recorded(g, chain).lineage
              && Recorded(g, chain).lineage[chain[i].grantId] == Some(chain[i - 1].grantId)
    {
      RowRecorded(g, chain, i);
      assert chain[i - 1 + 1].parentId == Some(chain[i - 1].grantId);
    }
  }

  /** The ids above the leaf, nearest first. */
  function Ancestors(chain: seq<ExecutionGrant>): (r: seq<string>)
    requires chain != []
    ensures |r| == |chain| - 1 && forall i :: 0 <= i < |r| ==> r[i] == chain[|chain| - 2 - i].grantId
  {
    seq(|chain| - 1, i requires 0 <= i < |chain| - 1 => chain[|chain| - 2 - i].grantId)
  }

  lemma AncestorsClimb(g: GrantStore.Grants, chain: seq<ExecutionGrant>)
    requires |chain| >= 2 && HoldsRows(g, chain)
    ensures Revocation.Climb(g.lineage, chain[|chain| - 2].grantId, Ancestors(chain))
    ensures Revocation.RootPath(g.lineage, chain[|chain| - 2].grantId, Ancestors(chain)) <==> RootRecorded(g, chain[0])
  {
    var path, n := Ancestors(chain), |chain|;
    forall i | 0 <= i < |path| - 1
      ensures path[i] in g.lineage && g.lineage[path[i]] == Some(path[i + 1])
    {
      assert path[i] == chain[n - 2 - i].grantId && path[i + 1] == chain[n - 2 - i - 1].grantId;
    }
    assert path[|path| - 1] == chain[0].grantId;
  }

  /** A path of recorded parents that ends at a root cannot pass through the grant it starts above. */
  lemma LeafNotAbove(g: GrantStore.Grants, chain: seq<ExecutionGrant>)
    requires |chain| >= 2 && HoldsRows(g, chain) && RootRecorded(g, chain[0])
    ensures chain[|chain| - 1].grantId !in Ancestors(chain)
  {
    var leaf, path := chain[|chain| - 1].grantId, Ancestors(chain);
    AncestorsClimb(g, chain);
    assert g.lineage[leaf] == Some(chain[|chain| - 2].grantId);
    forall k | 0 <= k < |path|
      ensures path[k] != leaf
    {
      var whole := [leaf] + path;
      assert Revocation.RootPath(g.lineage, leaf, whole);
      Revocation.RootPathDistinct(g.lineage, leaf, whole, 0, k + 1);
    }
  }

  /** The walk before a commit, on the rows that delegation left: it clears the leaf, and returns its
      ancestors nearest first, exactly when the root was recorded, the chain is not too deep and no
      ancestor is revoked. */
  lemma DelegatedWalkExactly(g: GrantStore.Grants, chain: seq<ExecutionGrant>, maxDepth: int)
    requires Linked(chain) && |chain| >= 2 && HoldsRows(g, chain) && 1 <= maxDepth <= Revocation.MAX_DELEGATION_DEPTH
    ensures var leaf := chain[|chain| - 1];
            Revocation.Walk(g, leaf.grantId, leaf.parentId, maxDepth) == Ok(Ancestors(chain)) <==>
              && RootRecorded(g, chain[0]) && |chain| - 1 <= maxDepth
              && forall i :: 0 <= i < |chain| - 1 ==> !GrantStore.IsRevoked(g, chain[i].grantId)
  {
    var n := |chain|;
    var leaf, parent, path := chain[n - 1], chain[n - 2].grantId, Ancestors(chain);
    assert chain[n - 2 + 1].parentId == Some(parent);
    AncestorsClimb(g, chain);
    Revocation.WalkAccepts(g, leaf.grantId, parent, maxDepth, path);
    if RootRecorded(g, chain[0]) {
      LeafNotAbove(g, chain);
    }
    RevokedAbove(g, chain);
  }

  lemma RevokedAbove(g: GrantStore.Grants, chain: seq<ExecutionGrant>)
    requires chain != []
    ensures (forall id :: id in Ancestors(chain) ==> !GrantStore.IsRevoked(g, id)) <==>
              forall i :: 0 <= i < |chain| - 1 ==> !GrantStore.IsRevoked(g, chain[i].grantId)
  {
    var path := Ancestors(chain);
    forall i | 0 <= i < |chain| - 1
      ensures chain[i].grantId in path
    {
      assert path[|chain| - 2 - i] == chain[i].grantId;
    }
  }

  /** From end to end: delegate again and again from a root whose row someone recorded, and the walk of
      the last grant clears it exactly while nothing above it is revoked, up to 16 grants deep. */
  lemma DelegatedGrantIsCleared(g: GrantStore.Grants, root: ExecutionGrant, proposals: seq<Proposal>)
    requires root.parentId.None? && proposals != [] && DelegateAll(root, proposals).Some?
    requires DistinctIds(DelegateAll(root, proposals).value)
    ensures var chain := DelegateAll(root, proposals).value;
            var store := Recorded(g, chain);
            && |chain| == |proposals| + 1 && chain[0] == root
            && var leaf := chain[|chain| - 1];
               Revocation.Walk(store, leaf.grantId, leaf.parentId, Revocation.MAX_DELEGATION_DEPTH) ==
                 Ok(Ancestors(chain)) <==>
                 && RootRecorded(g, root) && |proposals| <= Revocation.MAX_DELEGATION_DEPTH
                 && forall i :: 0 <= i < |chain| - 1 ==> !GrantStore.IsRevoked(g, chain[i].grantId)
  {
    var chain := DelegateAll(root, proposals).value;
    DelegatedIsLinked(root, proposals);
    RecordedHoldsRows(g, chain);
    DelegatedWalkExactly(Recorded(g, chain), chain, Revocation.MAX_DELEGATION_DEPTH);
  }
}
