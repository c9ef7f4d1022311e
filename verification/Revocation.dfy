/** Deep ancestor revocation: the bounded walk up the recorded lineage. */
module Revocation {
  import opened Wrappers
  import GrantStore

  const MAX_DELEGATION_DEPTH: nat := 16

  datatype Error = BadDepth | TooDeep | Cycle | AncestorRevoked | LineageUnknown

  type Lineage = map<string, Option<string>>

  /** The walk from `current` upwards, with `checked` the ancestors already cleared. */
  function WalkFrom(g: GrantStore.Grants, grantId: string, current: Option<string>, checked: seq<string>, maxDepth: nat)
    : Result<seq<string>, Error>
    decreases maxDepth - |checked|
  {
    if current.None? then Ok(checked)
    else
      var id := current.value;
      if |checked| + 1 > maxDepth then Err(TooDeep)
      else if id == grantId || id in checked then Err(Cycle)
      else if GrantStore.IsRevoked(g, id) then Err(AncestorRevoked)
      else if id !in g.lineage then Err(LineageUnknown)
      else WalkFrom(g, grantId, g.lineage[id], checked + [id], maxDepth)
  }

  /** The ancestors of a grant, nearest first, or the reason they cannot be cleared. */
  function Walk(g: GrantStore.Grants, grantId: string, parent: Option<string>, maxDepth: int)
    : Result<seq<string>, Error>
  {
    if maxDepth < 1 || maxDepth > MAX_DELEGATION_DEPTH then Err(BadDepth)
    else WalkFrom(g, grantId, parent, [], maxDepth)
  }

  /** The walk as the loop that the engine runs before every commit. */
  method AssertNoRevokedAncestors(g: GrantStore.Grants, grantId: string, parent: Option<string>, maxDepth: int)
    returns (r: Result<seq<string>, Error>)
    ensures r == Walk(g, grantId, parent, maxDepth)
  {
    if maxDepth < 1 || maxDepth > MAX_DELEGATION_DEPTH {
      return Err(BadDepth);
    }
    if parent.None? {
      return Ok([]);
    }
    var checked: seq<string> := [];
    var seen := {grantId};
    var current := parent;
    var depth := 0;
    while current.Some?
      invariant depth == |checked| <= maxDepth
      invariant seen == {grantId} + set id | id in checked
      invariant WalkFrom(g, grantId, current, checked, maxDepth) == Walk(g, grantId, parent, maxDepth)
      decreases maxDepth - depth
    {
      depth := depth + 1;
      if depth > maxDepth {
        return Err(TooDeep);
      }
      if current.value in seen {
        return Err(Cycle);
      }
      seen := seen + {current.value};
      if GrantStore.IsRevoked(g, current.value) {
        return Err(AncestorRevoked);
      }
      checked := checked + [current.value];
      if current.value !in g.lineage {
        return Err(LineageUnknown);
      }
      current := g.lineage[current.value];
    }
    return Ok(checked);
  }

  // ---------- what the walk accepts ----------

  /** A climb follows recorded parents, one after the other. */
  ghost predicate Climb(lineage: Lineage, start: string, path: seq<string>) {
    && path != [] && path[0] == start
    && forall i :: 0 <= i < |path| - 1 ==> path[i] in lineage && lineage[path[i]] == Some(path[i + 1])
  }

  /** A climb that ends at an id recorded as a root. */
  ghost predicate RootPath(lineage: Lineage, start: string, path: seq<string>) {
    && Climb(lineage, start, path)
    && path[|path| - 1] in lineage && lineage[path[|path| - 1]] == None
  }

  ghost predicate Clear(g: GrantStore.Grants, grantId: string, path: seq<string>) {
    grantId !in path && forall id :: id in path ==> !GrantStore.IsRevoked(g, id)
  }

  lemma {:induction false} ClimbWithinRootPath(lineage: Lineage, start: string, climb: seq<string>, path: seq<string>)
    requires Climb(lineage, start, climb) && RootPath(lineage, start, path)
    ensures climb <= path
    decreases |climb|
  {
    if |climb| > 1 {
      assert lineage[climb[0]] == Some(climb[1]);
      assert |path| > 1;
      assert Climb(lineage, climb[1], climb[1..]);
      assert RootPath(lineage, path[1], path[1..]);
      ClimbWithinRootPath(lineage, climb[1], climb[1..], path[1..]);
    }
  }

  /** The parent pointers determine the path to the root. */
  lemma RootPathUnique(lineage: Lineage, start: string, p: seq<string>, q: seq<string>)
    requires RootPath(lineage, start, p) && RootPath(lineage, start, q)
    ensures p == q
  {
    ClimbWithinRootPath(lineage, start, p, q);
    ClimbWithinRootPath(lineage, start, q, p);
  }

  /** A path that reaches a root never passes the same grant twice. */
  lemma RootPathDistinct(lineage: Lineage, start: string, path: seq<string>, i: nat, j: nat)
    requires RootPath(lineage, start, path) && i < j < |path|
    ensures path[i] != path[j]
  {
    if path[i] == path[j] {
      assert RootPath(lineage, path[i], path[i..]) && RootPath(lineage, path[j], path[j..]);
      RootPathUnique(lineage, path[i], path[i..], path[j..]);
    }
  }

  lemma {:induction false} WalkSound(g: GrantStore.Grants, grantId: string, current: Option<string>,
                                     checked: seq<string>, maxDepth: nat)
    requires |checked| <= maxDepth
    ensures var r := WalkFrom(g, grantId, current, checked, maxDepth);
            r.Ok? ==>
              && checked <= r.value && |r.value| <= maxDepth
              && var rest := r.value[|checked|..];
                 && (if current.None? then rest == [] else RootPath(g.lineage, current.value, rest))
                 && Clear(g, grantId, rest)
    decreases maxDepth - |checked|
  {
    var r := WalkFrom(g, grantId, current, checked, maxDepth);
    if r.Ok? && current.Some? {
      var id := current.value;
      WalkSound(g, grantId, g.lineage[id], checked + [id], maxDepth);
      var rest := r.value[|checked|..];
      assert rest == [id] + r.value[|checked| + 1..];
    }
  }

  lemma {:induction false} WalkComplete(g: GrantStore.Grants, grantId: string, start: string, checked: seq<string>,
                                        path: seq<string>, maxDepth: nat)
    requires RootPath(g.lineage, start, path) && Clear(g, grantId, path)
    requires |checked| + |path| <= maxDepth
    requires forall i, j :: 0 <= i < |checked| && 0 <= j < |path| ==> checked[i] != path[j]
    requires forall i, j :: 0 <= i < j < |path| ==> path[i] != path[j]
    ensures WalkFrom(g, grantId, Some(start), checked, maxDepth) == Ok(checked + path)
    decreases |path|
  {
    assert start in path;
    if |path| > 1 {
      assert RootPath(g.lineage, path[1], path[1..]);
      WalkComplete(g, grantId, path[1], checked + [start], path[1..], maxDepth);
      assert checked + [start] + path[1..] == checked + path;
    } else {
      assert checked + [start] == checked + path;
    }
  }

  /** The walk returns exactly when the parent path reaches a recorded root within the bound,
      avoids the grant itself and holds no revoked id; and it returns that path. */
  lemma WalkAccepts(g: GrantStore.Grants, grantId: string, parent: string, maxDepth: int, path: seq<string>)
    requires 1 <= maxDepth <= MAX_DELEGATION_DEPTH
    ensures Walk(g, grantId, Some(parent), maxDepth) == Ok(path) <==>
              RootPath(g.lineage, parent, path) && |path| <= maxDepth && Clear(g, grantId, path)
  {
    WalkSound(g, grantId, Some(parent), [], maxDepth);
    if RootPath(g.lineage, parent, path) && |path| <= maxDepth && Clear(g, grantId, path) {
      forall i, j | 0 <= i < j < |path|
        ensures path[i] != path[j]
      {
        RootPathDistinct(g.lineage, parent, path, i, j);
      }
      WalkComplete(g, grantId, parent, [], path, maxDepth);
      assert [] + path == path;
    }
  }

  // ---------- consequences ----------

  /** What later stores keep: recorded parents are not rewritten and revocations stay. */
  ghost predicate Later(g: GrantStore.Grants, h: GrantStore.Grants) {
    && (forall id :: id in g.lineage ==> id in h.lineage && h.lineage[id] == g.lineage[id])
    && (forall id :: GrantStore.IsRevoked(g, id) ==> GrantStore.IsRevoked(h, id))
  }

  /** Once an ancestor, however far up, is revoked, every later walk for a descendant fails. */
  lemma RevokedAncestorBlocks(g: GrantStore.Grants, h: GrantStore.Grants, grantId: string, parent: string,
                              climb: seq<string>, maxDepth: int)
    requires Climb(g.lineage, parent, climb) && GrantStore.IsRevoked(g, climb[|climb| - 1])
    requires Later(g, h)
    ensures Walk(h, grantId, Some(parent), maxDepth).Err?
  {
    var r := Walk(h, grantId, Some(parent), maxDepth);
    if r.Ok? {
      WalkSound(h, grantId, Some(parent), [], maxDepth);
      ClimbWithinRootPath(h.lineage, parent, climb, r.value);
    }
  }

  /** The engine records a parent for every delegated grant and nothing for a root grant. In a
      store that holds only such rows no delegated grant is ever cleared, wherever its climb leads. */
  lemma UnrecordedRootBlocksAll(g: GrantStore.Grants, grantId: string, parent: string, maxDepth: int)
    requires forall id :: id in g.lineage ==> g.lineage[id].Some?
    ensures Walk(g, grantId, Some(parent), maxDepth).Err?
  {
    var r := Walk(g, grantId, Some(parent), maxDepth);
    if r.Ok? {
      WalkSound(g, grantId, Some(parent), [], maxDepth);
    }
  }

  /** A climb that ends at an id without a row. */
  ghost predicate DeadEnd(lineage: Lineage, start: string, path: seq<string>) {
    Climb(lineage, start, path) && path[|path| - 1] !in lineage
  }

  lemma {:induction false} DeadEndUnique(lineage: Lineage, start: string, p: seq<string>, q: seq<string>)
    requires DeadEnd(lineage, start, p) && DeadEnd(lineage, start, q)
    ensures p == q
    decreases |p|
  {
    if |p| > 1 {
      assert lineage[p[0]] == Some(p[1]);
      assert |q| > 1;
      assert DeadEnd(lineage, p[1], p[1..]) && DeadEnd(lineage, q[1], q[1..]);
      DeadEndUnique(lineage, p[1], p[1..], q[1..]);
      assert p == [p[0]] + p[1..] && q == [q[0]] + q[1..];
    } else {
      assert |q| == 1;
    }
  }

  lemma DeadEndDistinct(lineage: Lineage, start: string, path: seq<string>, i: nat, j: nat)
    requires DeadEnd(lineage, start, path) && i < j < |path|
    ensures path[i] != path[j]
  {
    if path[i] == path[j] {
      assert DeadEnd(lineage, path[i], path[i..]) && DeadEnd(lineage, path[j], path[j..]);
      DeadEndUnique(lineage, path[i], path[i..], path[j..]);
    }
  }

  lemma {:induction false} WalkMeetsDeadEnd(
      g: GrantStore.Grants, grantId: string, start: string, checked: seq<string>, path: seq<string>, maxDepth: nat)
    requires DeadEnd(g.lineage, start, path)
    requires forall i, j :: 0 <= i < |checked| && 0 <= j < |path| ==> checked[i] != path[j]
    requires forall i, j :: 0 <= i < j < |path| ==> path[i] != path[j]
    ensures var r := WalkFrom(g, grantId, Some(start), checked, maxDepth);
            r.Err? && (r.error == LineageUnknown <==> |checked| + |path| <= maxDepth && Clear(g, grantId, path))
    decreases |path|
  {
    assert start == path[0] && start in path;
    assert start !in checked;
    if |path| > 1 {
      assert DeadEnd(g.lineage, path[1], path[1..]);
      assert path == [start] + path[1..];
      if |checked| + 1 <= maxDepth && start != grantId && !GrantStore.IsRevoked(g, start) {
        WalkMeetsDeadEnd(g, grantId, path[1], checked + [start], path[1..], maxDepth);
        assert Clear(g, grantId, path) <==> Clear(g, grantId, path[1..]);
      }
    }
  }

  /** A walk that climbs to an id without a row, as the root of every delegation is unless someone
      records it, never clears the grant. It says so exactly when the climb is within the bound, avoids
      the grant itself and meets no revoked id; otherwise it stops earlier for one of those reasons. */
  lemma UnrecordedAncestorBlocks(g: GrantStore.Grants, grantId: string, parent: string, climb: seq<string>,
                                 maxDepth: int)
    requires DeadEnd(g.lineage, parent, climb)
    ensures Walk(g, grantId, Some(parent), maxDepth).Err?
    ensures 1 <= maxDepth <= MAX_DELEGATION_DEPTH ==>
              (Walk(g, grantId, Some(parent), maxDepth) == Err(LineageUnknown) <==>
                 |climb| <= maxDepth && Clear(g, grantId, climb))
  {
    forall i, j | 0 <= i < j < |climb|
      ensures climb[i] != climb[j]
    {
      DeadEndDistinct(g.lineage, parent, climb, i, j);
    }
    if 1 <= maxDepth <= MAX_DELEGATION_DEPTH {
      WalkMeetsDeadEnd(g, grantId, parent, [], climb, maxDepth);
    }
  }
}
