/** Links, paths and the facts about them that the causal graph needs. */
module GraphPaths {
  import Ordering

  datatype Link = Link(id: string, parent: string, child: string)

  ghost predicate Edge(links: seq<Link>, u: string, v: string) {
    exists i :: 0 <= i < |links| && links[i].parent == u && links[i].child == v
  }

  /** A path is a non-empty list of nodes, each linked to the next. */
  ghost predicate IsPath(links: seq<Link>, p: seq<string>) {
    p != [] && forall i :: 0 <= i < |p| - 1 ==> Edge(links, p[i], p[i + 1])
  }

  /** A non-empty path from one node to another. */
  ghost predicate Connects(links: seq<Link>, p: seq<string>, u: string, v: string) {
    IsPath(links, p) && |p| >= 2 && p[0] == u && p[|p| - 1] == v
  }

  ghost predicate Leads(links: seq<Link>, u: string, v: string) {
    exists p :: Connects(links, p, u, v)
  }

  ghost predicate Acyclic(links: seq<Link>) {
    forall u :: !Leads(links, u, u)
  }

  ghost predicate EndsAt(links: seq<Link>, p: seq<string>, v: string) {
    IsPath(links, p) && p[|p| - 1] == v
  }

  /** `d` is the node count of the longest path that ends at `v`. */
  ghost predicate LongestTo(links: seq<Link>, v: string, d: int) {
    && (exists p :: EndsAt(links, p, v) && |p| == d)
    && (forall p :: EndsAt(links, p, v) ==> |p| <= d)
  }

  // ---------- children and open parents ----------

  /** The children of a node, one for every link, in link order. */
  function Children(links: seq<Link>, u: string): seq<string> {
    if links == [] then []
    else
      var last := links[|links| - 1];
      Children(links[..|links| - 1], u) + if last.parent == u then [last.child] else []
  }

  /** The number of links into `v` from nodes that are not done. */
  function Waiting(links: seq<Link>, done: set<string>, v: string): nat {
    if links == [] then 0
    else
      var last := links[|links| - 1];
      Waiting(links[..|links| - 1], done, v) + if last.child == v && last.parent !in done then 1 else 0
  }

  lemma {:induction false} ChildrenAreEdges(links: seq<Link>, u: string, v: string)
    ensures v in Children(links, u) <==> Edge(links, u, v)
    decreases |links|
  {
    if links != [] {
      var n := |links| - 1;
      ChildrenAreEdges(links[..n], u, v);
      if Edge(links[..n], u, v) {
        var i :| 0 <= i < n && links[..n][i].parent == u && links[..n][i].child == v;
        assert links[i] == links[..n][i];
      }
      if Edge(links, u, v) {
        var i :| 0 <= i < |links| && links[i].parent == u && links[i].child == v;
        assert i < n ==> links[..n][i] == links[i];
      }
    }
  }

  /** Finishing a node closes exactly the links that leave it. */
  lemma {:induction false} WaitingSplits(links: seq<Link>, done: set<string>, u: string, v: string)
    requires u !in done
    ensures Waiting(links, done, v) == Waiting(links, done + {u}, v) + multiset(Children(links, u))[v]
    decreases |links|
  {
    if links != [] {
      WaitingSplits(links[..|links| - 1], done, u, v);
    }
  }

  lemma {:induction false} WaitingZero(links: seq<Link>, done: set<string>, v: string)
    ensures Waiting(links, done, v) == 0 <==> forall u :: Edge(links, u, v) ==> u in done
    decreases |links|
  {
    if links != [] {
      var n := |links| - 1;
      WaitingZero(links[..n], done, v);
      forall u
        ensures Edge(links, u, v) <==> Edge(links[..n], u, v) || (links[n].parent == u && links[n].child == v)
      {
        if Edge(links[..n], u, v) {
          var i :| 0 <= i < n && links[..n][i].parent == u && links[..n][i].child == v;
          assert links[i] == links[..n][i];
        }
        if Edge(links, u, v) {
          var i :| 0 <= i < |links| && links[i].parent == u && links[i].child == v;
          assert i < n ==> links[..n][i] == links[i];
        }
      }
      assert Waiting(links, done, v) == 0 ==> Waiting(links[..n], done, v) == 0;
      if Waiting(links, done, v) != 0 && Waiting(links[..n], done, v) == 0 {
        assert Edge(links, links[n].parent, v);
      }
    }
  }

  // ---------- paths that must repeat a node ----------

  lemma {:induction false} SubsetSize(a: set<string>, b: set<string>)
    requires a <= b
    ensures |a| <= |b|
    decreases a
  {
    if a != {} {
      var x :| x in a;
      SubsetSize(a - {x}, b - {x});
    }
  }

  /** More places than nodes: some node is repeated. */
  lemma Pigeonhole(p: seq<string>, nodes: set<string>) returns (i: nat, j: nat)
    requires forall k :: 0 <= k < |p| ==> p[k] in nodes
    requires |p| > |nodes|
    ensures i < j < |p| && p[i] == p[j]
  {
    if forall a, b :: 0 <= a < b < |p| ==> p[a] != p[b] {
      Ordering.DistinctSize(p);
      SubsetSize((set x | x in p), nodes);
      assert false;
    }
    var a, b :| 0 <= a < b < |p| && p[a] == p[b];
    i, j := a, b;
  }

  ghost predicate HasOpenParent(links: seq<Link>, open: set<string>, x: string) {
    exists u :: u in open && Edge(links, u, x)
  }

  ghost predicate EveryoneHasOpenParent(links: seq<Link>, open: set<string>) {
    forall x {:trigger HasOpenParent(links, open, x)} :: x in open ==> HasOpenParent(links, open, x)
  }

  /** If every open node has an open parent, paths of any length run through open nodes. */
  lemma {:induction false} BackwardPath(links: seq<Link>, open: set<string>, v: string, n: nat) returns (p: seq<string>)
    requires v in open
    requires EveryoneHasOpenParent(links, open)
    ensures |p| == n + 1 && IsPath(links, p) && forall k :: 0 <= k < |p| ==> p[k] in open
    decreases n
  {
    if n == 0 {
      p := [v];
    } else {
      var q := BackwardPath(links, open, v, n - 1);
      assert HasOpenParent(links, open, q[0]);
      var u :| u in open && Edge(links, u, q[0]);
      p := [u] + q;
    }
  }

  /** A finite non-empty set in which every node has a parent holds a cycle. */
  lemma ClosedUnderParentsHasCycle(links: seq<Link>, open: set<string>)
    requires open != {}
    requires EveryoneHasOpenParent(links, open)
    ensures !Acyclic(links)
  {
    var v :| v in open;
    var p := BackwardPath(links, open, v, |open|);
    var i, j := Pigeonhole(p, open);
    assert Connects(links, p[i..j + 1], p[i], p[i]);
    assert Leads(links, p[i], p[i]);
  }

  // ---------- depths ----------

  /** The depth of a node is one more than that of some parent among `done`. */
  ghost predicate Explained(links: seq<Link>, done: set<string>, depths: map<string, int>, v: string) {
    v in depths && exists u :: Edge(links, u, v) && u in done && u in depths && depths[v] == depths[u] + 1
  }

  /** Depths that grow along every edge, start at one, and are explained by some parent. */
  ghost predicate DepthLabels(links: seq<Link>, depths: map<string, int>) {
    && (forall u, v :: Edge(links, u, v) ==> u in depths && v in depths && depths[u] < depths[v])
    && (forall v :: v in depths ==> depths[v] >= 1)
    && (forall v {:trigger Explained(links, depths.Keys, depths, v)} :: v in depths && depths[v] > 1 ==>
          Explained(links, depths.Keys, depths, v))
  }

  lemma {:induction false} DepthBoundsPath(links: seq<Link>, depths: map<string, int>, p: seq<string>)
    requires DepthLabels(links, depths) && IsPath(links, p) && p[0] in depths
    ensures p[|p| - 1] in depths && depths[p[|p| - 1]] >= depths[p[0]] + |p| - 1
    decreases |p|
  {
    var n := |p| - 1;
    if n > 0 {
      assert IsPath(links, p[..n]);
      DepthBoundsPath(links, depths, p[..n]);
      assert Edge(links, p[n - 1], p[n]);
    }
  }

  lemma {:induction false} DepthIsReached(links: seq<Link>, depths: map<string, int>, v: string)
    returns (p: seq<string>)
    requires DepthLabels(links, depths) && v in depths
    ensures EndsAt(links, p, v) && |p| == depths[v]
    decreases depths[v]
  {
    if depths[v] == 1 {
      p := [v];
    } else {
      assert Explained(links, depths.Keys, depths, v);
      var u :| Edge(links, u, v) && u in depths && depths[v] == depths[u] + 1;
      var q := DepthIsReached(links, depths, u);
      p := q + [v];
    }
  }

  /** Such labels exist only without cycles, and each is the length of the longest path. */
  lemma DepthLabelsAreLongest(links: seq<Link>, depths: map<string, int>)
    requires DepthLabels(links, depths)
    ensures Acyclic(links)
    ensures forall v :: v in depths ==> LongestTo(links, v, depths[v])
  {
    forall u, p | Connects(links, p, u, u)
      ensures false
    {
      assert Edge(links, p[0], p[1]);
      DepthBoundsPath(links, depths, p);
    }
    forall v | v in depths
      ensures LongestTo(links, v, depths[v])
    {
      var q := DepthIsReached(links, depths, v);
      forall p | EndsAt(links, p, v)
        ensures |p| <= depths[v]
      {
        assert |p| > 1 ==> Edge(links, p[0], p[1]);
        DepthBoundsPath(links, depths, p);
      }
    }
  }
}
