/** The causal effect graph: validation by Kahn's algorithm with depths, roots and ancestors. */
module CausalGraph {
  import opened Wrappers
  import opened GraphPaths
  import Ordering

  const MAX_GRAPH_NODES := 256
  const MAX_GRAPH_DEPTH := 32

  datatype Error =
    | NoNodes | TooManyNodes | DuplicateNode | DuplicateLink | UnknownEndpoint | SelfLoop | Cyclic | TooDeep
    | UnknownNode

  ghost predicate Distinct(xs: seq<string>) {
    forall i, j :: 0 <= i < j < |xs| ==> xs[i] != xs[j]
  }

  ghost predicate LinkIdsDistinct(links: seq<Link>) {
    forall i, j :: 0 <= i < j < |links| ==> links[i].id != links[j].id
  }

  ghost predicate EndpointsKnown(nodes: seq<string>, links: seq<Link>) {
    forall i :: 0 <= i < |links| ==> links[i].parent in nodes && links[i].child in nodes
  }

  ghost predicate NoSelfLoops(links: seq<Link>) {
    forall i :: 0 <= i < |links| ==> links[i].parent != links[i].child
  }

  ghost predicate Shallow(links: seq<Link>) {
    forall p :: IsPath(links, p) ==> |p| <= 32
  }

  ghost predicate WellFormed(nodes: seq<string>, links: seq<Link>) {
    && 1 <= |nodes| <= 256 && Distinct(nodes) && LinkIdsDistinct(links)
    && EndpointsKnown(nodes, links) && NoSelfLoops(links)
  }

  /** What a causal graph is: known endpoints, no cycle, and no path of more than 32 nodes. */
  ghost predicate IsCausalGraph(nodes: seq<string>, links: seq<Link>) {
    WellFormed(nodes, links) && Acyclic(links) && Shallow(links)
  }

  // ---------- the state of Kahn's algorithm ----------

  /** The bookkeeping after the nodes in `done` have been taken from the queue, when the links to
      `pending` are still to be followed: open-parent counts, and a queue of the nodes whose
      parents are all done. */
  ghost predicate Frontier(links: seq<Link>, nodes: set<string>, done: set<string>, pending: multiset<string>,
                           queue: seq<string>, indegree: map<string, int>)
  {
    && indegree.Keys == nodes && done <= nodes
    && (forall v :: v in nodes ==> indegree[v] == Waiting(links, done, v) + pending[v])
    && Distinct(queue) && (forall v :: v in queue ==> v in nodes && v !in done)
    && (forall v :: v in nodes ==> (indegree[v] == 0 <==> v in done || v in queue))
  }

  /** A link from a finished node has pushed the depth of its child, unless it is pending. */
  ghost predicate Pushed(links: seq<Link>, done: set<string>, node: string, pending: multiset<string>,
                         depths: map<string, int>) {
    forall u, v :: Edge(links, u, v) && u in done && u in depths && v in depths ==>
      depths[u] < depths[v] || (u == node && v in pending)
  }

  ghost predicate DepthsFit(links: seq<Link>, nodes: set<string>, done: set<string>, node: string,
                            pending: multiset<string>,
                            depths: map<string, int>)
  {
    && depths.Keys == nodes
    && Pushed(links, done, node, pending, depths)
    && (forall v :: v in nodes ==> depths[v] >= 1)
    && (forall v {:trigger Explained(links, done, depths, v)} :: v in nodes && depths[v] > 1 ==>
        Explained(links, done, depths, v))
  }

  // ---------- the two loops ----------

  /** Follows the links of one finished node: counts down the open parents of its children,
      pushes their depths and queues those that have become ready. */
  method FollowLinks(links: seq<Link>, nodes: set<string>, ghost done: set<string>, node: string, children: seq<string>,
                     queue0: seq<string>, indegree0: map<string, int>, depths0: map<string, int>)
    returns (queue: seq<string>, indegree: map<string, int>, depths: map<string, int>)
    requires node in done && ChildrenOf(links, nodes, node, children)
    requires Frontier(links, nodes, done, multiset(children), queue0, indegree0)
    requires DepthsFit(links, nodes, done, node, multiset(children), depths0)
    ensures Frontier(links, nodes, done, multiset{}, queue, indegree)
    ensures DepthsFit(links, nodes, done, node, multiset{}, depths)
    ensures DepthsKept(done, depths0, depths)
  {
    queue, indegree, depths := queue0, indegree0, depths0;
    var depth := depths[node];
    ghost var pending := multiset(children);
    for k := 0 to |children|
      invariant pending == multiset(children[k..])
      invariant Frontier(links, nodes, done, pending, queue, indegree)
      invariant DepthsFit(links, nodes, done, node, pending, depths)
      invariant DepthsKept(done, depths0, depths)
    {
      var child := children[k];
      NextPending(children, k);
      var deeper := if depths[child] < depth + 1 then depth + 1 else depths[child];
      FollowOne(links, nodes, done, node, child, pending, queue, indegree, depths, deeper);
      depths := depths[child := deeper];
      indegree := indegree[child := indegree[child] - 1];
      if indegree[child] == 0 {
        queue := queue + [child];
      }
      pending := pending - multiset{child};
    }
  }

  lemma NextPending(children: seq<string>, k: nat)
    requires k < |children|
    ensures children[k] in multiset(children[k..])
    ensures multiset(children[k + 1..]) == multiset(children[k..]) - multiset{children[k]}
  {
    assert children[k..] == [children[k]] + children[k + 1..];
  }

  ghost predicate ChildrenOf(links: seq<Link>, nodes: set<string>, node: string, children: seq<string>) {
    forall v :: v in children ==> v in nodes && Edge(links, node, v)
  }

  /** The depths of finished nodes are final. */
  ghost predicate DepthsKept(done: set<string>, before: map<string, int>, after: map<string, int>) {
    forall v :: v in done ==> v in before && v in after && after[v] == before[v]
  }

  lemma FollowOne(links: seq<Link>, nodes: set<string>, done: set<string>, node: string, child: string,
                  pending: multiset<string>,
                  queue: seq<string>, indegree: map<string, int>, depths: map<string, int>, deeper: int)
    requires node in done && Edge(links, node, child) && child in nodes && child in pending
    requires Frontier(links, nodes, done, pending, queue, indegree)
    requires DepthsFit(links, nodes, done, node, pending, depths)
    requires deeper == if depths[child] < depths[node] + 1 then depths[node] + 1 else depths[child]
    ensures var after := indegree[child := indegree[child] - 1];
            Frontier(links, nodes, done, pending - multiset{child},
                     if after[child] == 0 then queue + [child] else queue, after)
    ensures DepthsFit(links, nodes, done, node, pending - multiset{child}, depths[child := deeper])
    ensures DepthsKept(done, depths, depths[child := deeper])
  {
    CountDownKeeps(links, nodes, done, child, pending, queue, indegree);
    PushKeeps(links, nodes, done, node, child, pending, depths, deeper);
  }

  lemma CountDownKeeps(links: seq<Link>, nodes: set<string>, done: set<string>, child: string,
                       pending: multiset<string>,
                       queue: seq<string>, indegree: map<string, int>)
    requires Frontier(links, nodes, done, pending, queue, indegree) && child in nodes && child in pending
    ensures child !in done && child !in queue
    ensures var after := indegree[child := indegree[child] - 1];
            Frontier(links, nodes, done, pending - multiset{child},
                     if after[child] == 0 then queue + [child] else queue, after)
  {
    assert indegree[child] > 0;
  }

  lemma PushKeeps(links: seq<Link>, nodes: set<string>, done: set<string>, node: string, child: string,
                  pending: multiset<string>,
                  depths: map<string, int>, deeper: int)
    requires DepthsFit(links, nodes, done, node, pending, depths)
    requires node in done && done <= nodes && child in nodes && child !in done && Edge(links, node, child)
    requires deeper == if depths[child] < depths[node] + 1 then depths[node] + 1 else depths[child]
    ensures DepthsFit(links, nodes, done, node, pending - multiset{child}, depths[child := deeper])
  {
    var after := depths[child := deeper];
    forall v | v in nodes && after[v] > 1
      ensures Explained(links, done, after, v)
    {
      if v == child && deeper == depths[node] + 1 {
        assert Edge(links, node, v) && node in done && node in after && after[v] == after[node] + 1;
      } else {
        assert Explained(links, done, depths, v);
        var u :| Edge(links, u, v) && u in done && u in depths && depths[v] == depths[u] + 1;
        assert u in after && after[v] == after[u] + 1;
      }
    }
  }

  /** The first link that cannot stand, and what is wrong with it. */
  ghost predicate FirstBadLink(nodes: set<string>, links: seq<Link>, k: nat, error: Error)
    requires k < |links|
  {
    && LinksInside(nodes, links[..k])
    && if links[k].parent !in nodes || links[k].child !in nodes then error == UnknownEndpoint
       else links[k].parent == links[k].child && error == SelfLoop
  }

  ghost predicate BadLinkReported(nodes: set<string>, links: seq<Link>, error: Error) {
    exists k :: 0 <= k < |links| && FirstBadLink(nodes, links, k, error)
  }

  lemma LinksGrow(nodes: set<string>, links: seq<Link>, k: nat)
    requires k < |links| && LinksInside(nodes, links[..k])
    ensures links[..k + 1] == links[..k] + [links[k]]
    ensures links[k].parent in nodes && links[k].child in nodes && links[k].parent != links[k].child ==>
              LinksInside(nodes, links[..k + 1])
    ensures LinksInside(nodes, links) ==>
              links[k].parent in nodes && links[k].child in nodes && links[k].parent != links[k].child
  {
  }

  /** Builds the child lists and the parent counts, and stops at the first bad link. */
  method Tabulate(nodes: set<string>, links: seq<Link>)
    returns (r: Result<(map<string, seq<string>>, map<string, int>), Error>)
    ensures r.Ok? <==> LinksInside(nodes, links)
    ensures r.Ok? ==> Tables(nodes, links, r.value.0, r.value.1)
    ensures r.Err? ==> (r.error == UnknownEndpoint || r.error == SelfLoop) && BadLinkReported(nodes, links, r.error)
  {
    var adjacency: map<string, seq<string>> := map v | v in nodes :: [];
    var indegree: map<string, int> := map v | v in nodes :: 0;
    for k := 0 to |links|
      invariant Tables(nodes, links[..k], adjacency, indegree)
      invariant LinksInside(nodes, links[..k])
    {
      LinksGrow(nodes, links, k);
      var parent, child := links[k].parent, links[k].child;
      if parent !in nodes || child !in nodes {
        assert FirstBadLink(nodes, links, k, UnknownEndpoint);
        return Err(UnknownEndpoint);
      }
      if parent == child {
        assert FirstBadLink(nodes, links, k, SelfLoop);
        return Err(SelfLoop);
      }
      TablesGrow(nodes, links[..k], links[k], adjacency, indegree);
      adjacency := adjacency[parent := adjacency[parent] + [child]];
      indegree := indegree[child := indegree[child] + 1];
    }
    assert links[..|links|] == links;
    return Ok((adjacency, indegree));
  }

  lemma TablesGrow(nodes: set<string>, links: seq<Link>, link: Link, adjacency: map<string, seq<string>>,
                   indegree: map<string, int>)
    requires Tables(nodes, links, adjacency, indegree) && link.parent in nodes && link.child in nodes
    ensures Tables(nodes, links + [link], adjacency[link.parent := adjacency[link.parent] + [link.child]],
                   indegree[link.child := indegree[link.child] + 1])
  {
    assert (links + [link])[..|links|] == links;
  }

  ghost predicate LinksInside(nodes: set<string>, links: seq<Link>) {
    forall i :: 0 <= i < |links| ==>
      links[i].parent in nodes && links[i].child in nodes && links[i].parent != links[i].child
  }

  ghost predicate Tables(nodes: set<string>, links: seq<Link>, adjacency: map<string, seq<string>>,
                         indegree: map<string, int>) {
    && adjacency.Keys == nodes == indegree.Keys
    && forall v :: v in nodes ==> adjacency[v] == Children(links, v) && indegree[v] == Waiting(links, {}, v)
  }

  /** Queues the nodes without parents, in the order in which the nodes are listed. */
  method InitialQueue(order: seq<string>, indegree: map<string, int>) returns (queue: seq<string>)
    requires Distinct(order) && forall v :: v in order ==> v in indegree
    ensures Distinct(queue)
    ensures forall v :: v in queue <==> v in order && indegree[v] == 0
  {
    queue := [];
    for k := 0 to |order|
      invariant Distinct(queue)
      invariant forall v :: v in queue <==> v in order[..k] && indegree[v] == 0
    {
      if indegree[order[k]] == 0 {
        queue := queue + [order[k]];
      }
    }
  }

  /** Takes ready nodes until none is left. All nodes are taken exactly when there is no cycle,
      and then the depth of each is the node count of the longest path that ends at it. */
  method Kahn(links: seq<Link>, nodes: set<string>, order: seq<string>, adjacency: map<string, seq<string>>,
              indegree0: map<string, int>)
    returns (visited: nat, maxDepth: int, depths: map<string, int>)
    requires Distinct(order) && forall v :: v in nodes <==> v in order
    requires LinksInside(nodes, links) && Tables(nodes, links, adjacency, indegree0)
    ensures visited == |nodes| <==> Acyclic(links)
    ensures visited == |nodes| ==> DepthsLongest(links, nodes, depths, maxDepth)
  {
    var indegree := indegree0;
    var queue := InitialQueue(order, indegree);
    depths := map v | v in nodes :: 1;
    ghost var done: set<string> := {};
    visited, maxDepth := 0, 0;
    KahnStarts(links, nodes, order, queue, indegree, depths);
    while queue != []
      invariant Taken(links, nodes, done, queue, indegree, depths, maxDepth)
      invariant visited == |done|
      decreases |nodes - done|
    {
      ghost var node := queue[0];
      queue, indegree, depths, maxDepth := TakeNode(links, nodes, done, adjacency, indegree0, queue, indegree, depths,
                                                    maxDepth);
      visited := visited + 1;
      done := done + {node};
    }
    KahnEnds(links, nodes, done, indegree, depths, maxDepth);
  }

  /** What holds between two turns of the loop. */
  ghost predicate Taken(links: seq<Link>, nodes: set<string>, done: set<string>, queue: seq<string>,
                        indegree: map<string, int>, depths: map<string, int>, maxDepth: int)
  {
    && Frontier(links, nodes, done, multiset{}, queue, indegree)
    && DepthsFit(links, nodes, done, "", multiset{}, depths)
    && Deepest(done, depths, maxDepth)
  }

  /** One turn of the loop: the head of the queue is finished and its links are followed. */
  method TakeNode(links: seq<Link>, nodes: set<string>, ghost done: set<string>, adjacency: map<string, seq<string>>,
                  ghost indegree0: map<string, int>, queue0: seq<string>, indegree1: map<string, int>,
                  depths0: map<string, int>, maxDepth0: int)
    returns (queue: seq<string>, indegree: map<string, int>, depths: map<string, int>, maxDepth: int)
    requires LinksInside(nodes, links) && Tables(nodes, links, adjacency, indegree0) && queue0 != []
    requires Taken(links, nodes, done, queue0, indegree1, depths0, maxDepth0)
    ensures Taken(links, nodes, done + {queue0[0]}, queue, indegree, depths, maxDepth)
    ensures |done + {queue0[0]}| == |done| + 1 && |nodes - (done + {queue0[0]})| < |nodes - done|
  {
    var node := queue0[0];
    var depth := depths0[node];
    TakeOne(links, nodes, done, node, queue0, indegree1, depths0, maxDepth0);
    maxDepth := if maxDepth0 < depth then depth else maxDepth0;
    ghost var taken := done + {node};
    queue, indegree, depths := FollowLinks(links, nodes, taken, node, adjacency[node], queue0[1..], indegree1, depths0);
    LinksFollowed(links, nodes, taken, node, depths0, depths, maxDepth);
  }

  ghost predicate Deepest(done: set<string>, depths: map<string, int>, maxDepth: int) {
    && (forall v :: v in done ==> v in depths && depths[v] <= maxDepth)
    && (if done == {} then maxDepth == 0 else exists v :: v in done && v in depths && depths[v] == maxDepth)
  }

  /** Taking the head of the queue makes its links pending. */
  lemma TakeKeeps(links: seq<Link>, nodes: set<string>, done: set<string>, node: string, queue: seq<string>,
                  indegree: map<string, int>)
    requires Frontier(links, nodes, done, multiset{}, queue, indegree) && queue != [] && node == queue[0]
    ensures Frontier(links, nodes, done + {node}, multiset(Children(links, node)), queue[1..], indegree)
  {
    forall v | v in nodes
      ensures indegree[v] == Waiting(links, done + {node}, v) + multiset(Children(links, node))[v]
    {
      WaitingSplits(links, done, node, v);
    }
    assert queue == [node] + queue[1..];
  }

  lemma TakeKeepsDepths(links: seq<Link>, nodes: set<string>, done: set<string>, node: string, depths: map<string, int>)
    requires LinksInside(nodes, links) && DepthsFit(links, nodes, done, "", multiset{}, depths)
    ensures DepthsFit(links, nodes, done + {node}, node, multiset(Children(links, node)), depths)
    ensures ChildrenOf(links, nodes, node, Children(links, node))
  {
    forall v
      ensures v in Children(links, node) <==> Edge(links, node, v)
    {
      ChildrenAreEdges(links, node, v);
    }
    forall v | v in nodes && depths[v] > 1
      ensures Explained(links, done + {node}, depths, v)
    {
      assert Explained(links, done, depths, v);
    }
  }

  /** Once every node is done, the depths are labels of the whole graph. */
  lemma AllDone(links: seq<Link>, nodes: set<string>, depths: map<string, int>)
    requires LinksInside(nodes, links) && DepthsFit(links, nodes, nodes, "", multiset{}, depths)
    ensures DepthLabels(links, depths)
  {
    forall u, v | Edge(links, u, v)
      ensures u in depths && v in depths && depths[u] < depths[v]
    {
    }
    forall v | v in depths && depths[v] > 1
      ensures Explained(links, depths.Keys, depths, v)
    {
      assert Explained(links, nodes, depths, v);
    }
  }

  lemma KahnStarts(links: seq<Link>, nodes: set<string>, order: seq<string>, queue: seq<string>,
                   indegree: map<string, int>, depths: map<string, int>)
    requires forall v :: v in nodes <==> v in order
    requires indegree.Keys == nodes && forall v :: v in nodes ==> indegree[v] == Waiting(links, {}, v)
    requires Distinct(queue) && forall v :: v in queue <==> v in order && indegree[v] == 0
    requires depths == map v | v in nodes :: 1
    ensures Frontier(links, nodes, {}, multiset{}, queue, indegree)
    ensures DepthsFit(links, nodes, {}, "", multiset{}, depths)
  {
  }

  lemma TakeOne(links: seq<Link>, nodes: set<string>, done: set<string>, node: string, queue: seq<string>,
                indegree: map<string, int>, depths: map<string, int>, maxDepth: int)
    requires LinksInside(nodes, links) && Deepest(done, depths, maxDepth)
    requires Frontier(links, nodes, done, multiset{}, queue, indegree)
             && DepthsFit(links, nodes, done, "", multiset{}, depths)
    requires queue != [] && node == queue[0]
    ensures Frontier(links, nodes, done + {node}, multiset(Children(links, node)), queue[1..], indegree)
    ensures DepthsFit(links, nodes, done + {node}, node, multiset(Children(links, node)), depths)
    ensures ChildrenOf(links, nodes, node, Children(links, node))
    ensures |done + {node}| == |done| + 1 && |nodes - (done + {node})| < |nodes - done|
    ensures Deepest(done + {node}, depths, if maxDepth < depths[node] then depths[node] else maxDepth)
  {
    TakeKeeps(links, nodes, done, node, queue, indegree);
    TakeKeepsDepths(links, nodes, done, node, depths);
    assert node in queue;
    assert nodes - (done + {node}) == (nodes - done) - {node};
    DeepestGrows(done, node, depths, maxDepth);
  }

  lemma DeepestGrows(done: set<string>, node: string, depths: map<string, int>, maxDepth: int)
    requires Deepest(done, depths, maxDepth) && node in depths && depths[node] >= 1
    ensures Deepest(done + {node}, depths, if maxDepth < depths[node] then depths[node] else maxDepth)
  {
    var m := if maxDepth < depths[node] then depths[node] else maxDepth;
    if m == depths[node] {
      assert node in done + {node};
    } else {
      var v :| v in done && v in depths && depths[v] == maxDepth;
      assert v in done + {node};
    }
  }

  lemma LinksFollowed(links: seq<Link>, nodes: set<string>, done: set<string>, node: string,
                      before: map<string, int>, after: map<string, int>, maxDepth: int)
    requires DepthsFit(links, nodes, done, node, multiset{}, after)
    requires Deepest(done, before, maxDepth) && DepthsKept(done, before, after)
    ensures DepthsFit(links, nodes, done, "", multiset{}, after) && Deepest(done, after, maxDepth)
  {
    DeepestStays(done, before, after, maxDepth);
  }

  lemma DeepestStays(done: set<string>, before: map<string, int>, after: map<string, int>, maxDepth: int)
    requires Deepest(done, before, maxDepth)
    requires DepthsKept(done, before, after)
    ensures Deepest(done, after, maxDepth)
  {
    if done != {} {
      var v :| v in done && v in before && before[v] == maxDepth;
      assert after[v] == maxDepth;
    }
  }

  lemma NothingLeft(a: set<string>, b: set<string>)
    requires a <= b
    ensures |a| == |b| <==> b - a == {}
    ensures b - a == {} ==> a == b
  {
    assert a + (b - a) == b;
  }

  /** When the queue runs dry, the nodes left over all wait for one another. */
  lemma KahnStops(links: seq<Link>, nodes: set<string>, done: set<string>, indegree: map<string, int>,
                  depths: map<string, int>)
    requires LinksInside(nodes, links)
    requires Frontier(links, nodes, done, multiset{}, [], indegree)
             && DepthsFit(links, nodes, done, "", multiset{}, depths)
    ensures |done| == |nodes| <==> Acyclic(links)
    ensures |done| == |nodes| ==> done == nodes && forall v :: v in nodes ==> LongestTo(links, v, depths[v])
  {
    NothingLeft(done, nodes);
    var open := nodes - done;
    if open == {} {
      AllDone(links, nodes, depths);
      DepthLabelsAreLongest(links, depths);
    } else {
      forall x | x in open
        ensures HasOpenParent(links, open, x)
      {
        WaitingZero(links, done, x);
      }
      ClosedUnderParentsHasCycle(links, open);
    }
  }

  lemma KahnEnds(links: seq<Link>, nodes: set<string>, done: set<string>, indegree: map<string, int>,
                 depths: map<string, int>, maxDepth: int)
    requires LinksInside(nodes, links) && Deepest(done, depths, maxDepth)
    requires Frontier(links, nodes, done, multiset{}, [], indegree)
             && DepthsFit(links, nodes, done, "", multiset{}, depths)
    ensures |done| == |nodes| <==> Acyclic(links)
    ensures |done| == |nodes| ==> DepthsLongest(links, nodes, depths, maxDepth)
  {
    KahnStops(links, nodes, done, indegree, depths);
  }

  /** The depths are those of the longest paths, and the greatest of them is known. */
  ghost predicate DepthsLongest(links: seq<Link>, nodes: set<string>, depths: map<string, int>, maxDepth: int) {
    && depths.Keys == nodes
    && (forall v :: v in nodes ==> LongestTo(links, v, depths[v]) && depths[v] <= maxDepth)
    && (nodes != {} ==> exists v :: v in nodes && depths[v] == maxDepth)
  }

  // ---------- validation ----------

  method FirstDuplicate(xs: seq<string>) returns (found: bool)
    ensures found <==> !Distinct(xs)
  {
    var seen: set<string> := {};
    for k := 0 to |xs|
      invariant seen == set x | x in xs[..k]
      invariant Distinct(xs[..k])
    {
      if xs[k] in seen {
        return true;
      }
      seen := seen + {xs[k]};
      assert xs[..k + 1] == xs[..k] + [xs[k]];
    }
    assert xs[..|xs|] == xs;
    return false;
  }

  method RepeatsLinkId(links: seq<Link>) returns (found: bool)
    ensures found <==> !LinkIdsDistinct(links)
  {
    var ids := seq(|links|, i requires 0 <= i < |links| => links[i].id);
    found := FirstDuplicate(ids);
    assert Distinct(ids) <==> LinkIdsDistinct(links) by {
      if Distinct(ids) {
        forall i, j | 0 <= i < j < |links|
          ensures links[i].id != links[j].id
        {
          assert ids[i] != ids[j];
        }
      }
    }
  }

  /** Accepts exactly the causal graphs, and computes for each node the node count of the
      longest path that ends there. */
  method Validate(nodes: seq<string>, links: seq<Link>) returns (r: Result<map<string, int>, Error>)
    ensures r.Ok? <==> IsCausalGraph(nodes, links)
    ensures r.Ok? ==> r.value.Keys == (set x | x in nodes) && forall v :: v in nodes ==> LongestTo(links, v, r.value[v])
    ensures r == Err(UnknownEndpoint) || r == Err(SelfLoop) ==>
              BadLinkReported((set x | x in nodes), ById(links), r.error)
    ensures r == Err(Cyclic) <==> WellFormed(nodes, links) && !Acyclic(links)
    ensures r == Err(TooDeep) <==> WellFormed(nodes, links) && Acyclic(links) && !Shallow(links)
  {
    if nodes == [] {
      return Err(NoNodes);
    }
    if |nodes| > MAX_GRAPH_NODES {
      return Err(TooManyNodes);
    }
    var repeated := FirstDuplicate(nodes);
    if repeated {
      return Err(DuplicateNode);
    }
    repeated := RepeatsLinkId(links);
    if repeated {
      return Err(DuplicateLink);
    }
    NodesSorted(nodes);
    LinksSorted(links);
    SameGraph(links, ById(links));
    r := ValidateDag(Ordering.Sort(nodes), ById(links));
  }

  /** The links in the order in which the graph keeps them. */
  function ById(links: seq<Link>): seq<Link> {
    Ordering.SortBy(links, (link: Link) => link.id)
  }

  lemma LinksSorted(links: seq<Link>)
    ensures multiset(ById(links)) == multiset(links)
    ensures forall link :: link in links <==> link in ById(links)
  {
    Ordering.SortByKeeps(links, (link: Link) => link.id);
    MembersAgree(links, ById(links));
  }

  lemma MembersAgree<T(!new)>(xs: seq<T>, ys: seq<T>)
    requires multiset(xs) == multiset(ys)
    ensures forall x :: x in xs <==> x in ys
  {
    forall x
      ensures x in xs <==> x in ys
    {
      assert x in xs <==> x in multiset(xs);
      assert x in ys <==> x in multiset(ys);
    }
  }

  lemma NodesSorted(nodes: seq<string>)
    ensures forall v :: v in nodes <==> v in Ordering.Sort(nodes)
    ensures (set x | x in nodes) == (set x | x in Ordering.Sort(nodes))
    ensures |Ordering.Sort(nodes)| == |nodes|
    ensures Distinct(nodes) ==> Distinct(Ordering.Sort(nodes))
  {
    Ordering.SortByKeeps(nodes, (s: string) => s);
    MembersAgree(nodes, Ordering.Sort(nodes));
    if Distinct(nodes) {
      Ordering.DistinctUnderPermutation(nodes, Ordering.Sort(nodes), (s: string) => s);
    }
  }

  /** What a graph is depends on its links alone and not on their order. */
  lemma SameGraph(a: seq<Link>, b: seq<Link>)
    requires forall link :: link in a <==> link in b
    ensures forall nodes :: EndpointsKnown(nodes, a) <==> EndpointsKnown(nodes, b)
    ensures NoSelfLoops(a) <==> NoSelfLoops(b)
    ensures Acyclic(a) <==> Acyclic(b)
    ensures Shallow(a) <==> Shallow(b)
    ensures forall v, d :: LongestTo(a, v, d) <==> LongestTo(b, v, d)
  {
    LinkFactsCarry(a, b);
    LinkFactsCarry(b, a);
    PathsAgree(a, b);
    forall u, v
      ensures Leads(a, u, v) <==> Leads(b, u, v)
    {
      assert forall p :: Connects(a, p, u, v) <==> Connects(b, p, u, v);
    }
    forall v, d
      ensures LongestTo(a, v, d) <==> LongestTo(b, v, d)
    {
      assert forall p :: EndsAt(a, p, v) <==> EndsAt(b, p, v);
    }
  }

  lemma LinkFactsCarry(a: seq<Link>, b: seq<Link>)
    requires forall link :: link in b ==> link in a
    ensures forall nodes :: EndpointsKnown(nodes, a) ==> EndpointsKnown(nodes, b)
    ensures NoSelfLoops(a) ==> NoSelfLoops(b)
  {
    forall i | 0 <= i < |b|
      ensures exists j :: 0 <= j < |a| && a[j] == b[i]
    {
      assert b[i] in a;
    }
  }

  lemma EdgeCarries(a: seq<Link>, b: seq<Link>, u: string, v: string)
    requires Edge(a, u, v) && forall link :: link in a ==> link in b
    ensures Edge(b, u, v)
  {
    var i :| 0 <= i < |a| && a[i].parent == u && a[i].child == v;
    assert a[i] in b;
    var j :| 0 <= j < |b| && b[j] == a[i];
  }

  lemma PathsAgree(a: seq<Link>, b: seq<Link>)
    requires forall link :: link in a <==> link in b
    ensures forall p :: IsPath(a, p) <==> IsPath(b, p)
  {
    forall u, v
      ensures Edge(a, u, v) <==> Edge(b, u, v)
    {
      if Edge(a, u, v) {
        EdgeCarries(a, b, u, v);
      }
      if Edge(b, u, v) {
        EdgeCarries(b, a, u, v);
      }
    }
  }

  /** Which bad link is reported does not depend on the order in which the links were given. */
  lemma ReportIsOrderFree(nodes: set<string>, a: seq<Link>, b: seq<Link>, x: Error, y: Error)
    requires multiset(a) == multiset(b) && LinkIdsDistinct(a)
    requires BadLinkReported(nodes, ById(a), x) && BadLinkReported(nodes, ById(b), y)
    ensures ById(a) == ById(b) && x == y
  {
    Ordering.SortByOrderFree(a, b, (link: Link) => link.id);
    var j :| 0 <= j < |ById(a)| && FirstBadLink(nodes, ById(a), j, x);
    var k :| 0 <= k < |ById(b)| && FirstBadLink(nodes, ById(b), k, y);
    if j < k {
      assert ById(b)[..k][j] == ById(a)[j];
    } else if k < j {
      assert ById(a)[..j][k] == ById(b)[k];
    }
  }

  /** The part of the validation that looks at the links. */
  method ValidateDag(nodes: seq<string>, links: seq<Link>) returns (r: Result<map<string, int>, Error>)
    requires nodes != [] && Distinct(nodes)
    ensures r.Ok? <==> EndpointsKnown(nodes, links) && NoSelfLoops(links) && Acyclic(links) && Shallow(links)
    ensures r.Ok? ==> r.value.Keys == (set x | x in nodes) && forall v :: v in nodes ==> LongestTo(links, v, r.value[v])
    ensures r.Err? ==> r.error in {UnknownEndpoint, SelfLoop, Cyclic, TooDeep}
    ensures r == Err(UnknownEndpoint) || r == Err(SelfLoop) ==> BadLinkReported((set x | x in nodes), links, r.error)
    ensures r == Err(Cyclic) <==> EndpointsKnown(nodes, links) && NoSelfLoops(links) && !Acyclic(links)
    ensures r == Err(TooDeep) <==>
              EndpointsKnown(nodes, links) && NoSelfLoops(links) && Acyclic(links) && !Shallow(links)
  {
    var known := set x | x in nodes;
    assert nodes[0] in known;
    InsideMeans(nodes, links);
    var tables := Tabulate(known, links);
    if tables.Err? {
      return Err(tables.error);
    }
    var visited, maxDepth, depths := Kahn(links, known, nodes, tables.value.0, tables.value.1);
    if visited != |known| {
      return Err(Cyclic);
    }
    ShallowIffDepths(nodes, links, depths, maxDepth);
    if maxDepth > MAX_GRAPH_DEPTH {
      return Err(TooDeep);
    }
    return Ok(depths);
  }

  lemma InsideMeans(nodes: seq<string>, links: seq<Link>)
    ensures LinksInside((set x | x in nodes), links) <==> EndpointsKnown(nodes, links) && NoSelfLoops(links)
  {
  }

  lemma ShallowIffDepths(nodes: seq<string>, links: seq<Link>, depths: map<string, int>, maxDepth: int)
    requires nodes != [] && depths.Keys == set x | x in nodes
    requires LinksInside(depths.Keys, links) && DepthsLongest(links, depths.Keys, depths, maxDepth)
    ensures Shallow(links) <==> maxDepth <= MAX_GRAPH_DEPTH
  {
    assert nodes[0] in depths.Keys;
    var v :| v in depths && depths[v] == maxDepth;
    var longest :| EndsAt(links, longest, v) && |longest| == depths[v];
    if maxDepth <= MAX_GRAPH_DEPTH {
      forall p | IsPath(links, p)
        ensures |p| <= MAX_GRAPH_DEPTH
      {
        if |p| > 1 {
          var last := p[|p| - 1];
          assert Edge(links, p[|p| - 2], last);
          assert last in depths && EndsAt(links, p, last);
        }
      }
    }
  }

  // ---------- roots and ancestors ----------

  /** The nodes that no link points to, in node order. */
  function Roots(nodes: seq<string>, links: seq<Link>): seq<string> {
    if nodes == [] then []
    else
      var rest := Roots(nodes[1..], links);
      if exists i :: 0 <= i < |links| && links[i].child == nodes[0] then rest else [nodes[0]] + rest
  }

  lemma {:induction false} RootsHaveNoParents(nodes: seq<string>, links: seq<Link>, v: string)
    ensures v in Roots(nodes, links) <==> v in nodes && forall u :: !Edge(links, u, v)
    decreases |nodes|
  {
    if nodes != [] {
      RootsHaveNoParents(nodes[1..], links, v);
      assert nodes == [nodes[0]] + nodes[1..];
      if exists i :: 0 <= i < |links| && links[i].child == nodes[0] {
        var i :| 0 <= i < |links| && links[i].child == nodes[0];
        assert Edge(links, links[i].parent, nodes[0]);
      }
    }
  }

  /** A longest path starts at a root. */
  lemma LongestStartsAtRoot(nodes: seq<string>, links: seq<Link>, v: string, d: int) returns (root: string)
    requires EndpointsKnown(nodes, links) && v in nodes && LongestTo(links, v, d)
    ensures root in Roots(nodes, links) && (root == v || Leads(links, root, v))
  {
    var p :| EndsAt(links, p, v) && |p| == d;
    root := p[0];
    forall u
      ensures !Edge(links, u, root)
    {
      if Edge(links, u, root) {
        assert EndsAt(links, [u] + p, v);
      }
    }
    if |p| > 1 {
      assert Connects(links, p, root, v);
      assert Edge(links, p[0], p[1]);
    }
    RootsHaveNoParents(nodes, links, root);
  }

  /** Paths of bounded length have a longest one. */
  lemma {:induction false} LongestExists(links: seq<Link>, v: string, bound: nat) returns (d: int)
    requires forall p :: EndsAt(links, p, v) ==> |p| <= bound
    ensures LongestTo(links, v, d)
    decreases bound
  {
    if exists p :: EndsAt(links, p, v) && |p| == bound {
      d := bound;
    } else {
      assert EndsAt(links, [v], v);
      d := LongestExists(links, v, bound - 1);
    }
  }

  /** Every causal graph has a root, and every other node has a root among its ancestors. */
  lemma RootsReachEverything(nodes: seq<string>, links: seq<Link>, v: string)
    requires IsCausalGraph(nodes, links) && v in nodes
    ensures Roots(nodes, links) != []
    ensures v !in Roots(nodes, links) ==> exists root :: root in Roots(nodes, links) && Leads(links, root, v)
  {
    var d := LongestExists(links, v, MAX_GRAPH_DEPTH);
    var root := LongestStartsAtRoot(nodes, links, v, d);
  }

  /** The parents of a node, one for every link. */
  function Parents(links: seq<Link>, v: string): seq<string> {
    if links == [] then []
    else
      var last := links[|links| - 1];
      Parents(links[..|links| - 1], v) + if last.child == v then [last.parent] else []
  }

  lemma {:induction false} ParentsAreEdges(links: seq<Link>, u: string, v: string)
    ensures u in Parents(links, v) <==> Edge(links, u, v)
    decreases |links|
  {
    if links != [] {
      var n := |links| - 1;
      ParentsAreEdges(links[..n], u, v);
      if Edge(links[..n], u, v) {
        var i :| 0 <= i < n && links[..n][i].parent == u && links[..n][i].child == v;
        assert links[i] == links[..n][i];
      }
      if Edge(links, u, v) {
        var i :| 0 <= i < |links| && links[i].parent == u && links[i].child == v;
        assert i < n ==> links[..n][i] == links[i];
      }
    }
  }

  lemma LeadsStep(links: seq<Link>, u: string, v: string, w: string)
    requires Edge(links, u, v) && (v == w || Leads(links, v, w))
    ensures Leads(links, u, w)
  {
    if v == w {
      assert Connects(links, [u, v], u, w);
    } else {
      var p :| Connects(links, p, v, w);
      assert Connects(links, [u] + p, u, w);
    }
  }

  /** A set that holds the parents of a node and of its own members holds all its ancestors. */
  lemma {:induction false} AncestorsInside(links: seq<Link>, seen: set<string>, v: string, p: seq<string>, u: string)
    requires Connects(links, p, u, v)
    requires forall a :: Edge(links, a, v) ==> a in seen
    requires forall a, b :: b in seen && Edge(links, a, b) ==> a in seen
    ensures u in seen
    decreases |p|
  {
    assert Edge(links, p[0], p[1]);
    if |p| > 2 {
      assert Connects(links, p[1..], p[1], v);
      AncestorsInside(links, seen, v, p[1..], p[1]);
    }
  }

  ghost predicate Traced(links: seq<Link>, v: string, seen: set<string>, queue: seq<string>) {
    && (forall a :: a in seen || a in queue ==> Leads(links, a, v))
    && (forall a :: Edge(links, a, v) ==> a in seen || a in queue)
    && (forall a, b :: b in seen && Edge(links, a, b) ==> a in seen || a in queue)
  }

  lemma TraceStarts(links: seq<Link>, v: string)
    ensures Traced(links, v, {}, Parents(links, v))
  {
    forall a
      ensures a in Parents(links, v) <==> Edge(links, a, v)
      ensures a in Parents(links, v) ==> Leads(links, a, v)
    {
      ParentsAreEdges(links, a, v);
      if Edge(links, a, v) {
        LeadsStep(links, a, v, v);
      }
    }
  }

  lemma TraceContinues(links: seq<Link>, v: string, seen: set<string>, queue: seq<string>)
    requires Traced(links, v, seen, queue) && queue != []
    ensures queue[0] in seen ==> Traced(links, v, seen, queue[1..])
    ensures queue[0] !in seen ==> Traced(links, v, seen + {queue[0]}, queue[1..] + Parents(links, queue[0]))
  {
    var node := queue[0];
    assert queue == [node] + queue[1..];
    forall a
      ensures a in Parents(links, node) <==> Edge(links, a, node)
      ensures a in Parents(links, node) ==> Leads(links, a, v)
    {
      ParentsAreEdges(links, a, node);
      if Edge(links, a, node) {
        LeadsStep(links, a, node, v);
      }
    }
  }

  /** Walks the parents breadth first. The result is sorted, holds exactly the nodes with a
      non-empty path to the given node, and, without cycles, never the node itself. */
  method AncestorsOf(nodes: seq<string>, links: seq<Link>, v: string) returns (r: Result<seq<string>, Error>)
    ensures r.Ok? <==> v in nodes
    ensures r.Ok? ==>
              && Ordering.SortedBy(r.value, (s: string) => s) && Ordering.DistinctBy(r.value, (s: string) => s)
              && (forall u :: u in r.value <==> Leads(links, u, v))
              && (Acyclic(links) ==> v !in r.value)
  {
    if v !in nodes {
      return Err(UnknownNode);
    }
    var seen: set<string> := {};
    var queue := Parents(links, v);
    ghost var all := set i | 0 <= i < |links| :: links[i].parent;
    TraceStarts(links, v);
    while queue != []
      invariant Traced(links, v, seen, queue)
      decreases all - seen, |queue|
    {
      var node := queue[0];
      TraceContinues(links, v, seen, queue);
      if node in seen {
        queue := queue[1..];
      } else {
        InAll(links, all, node, v);
        seen := seen + {node};
        queue := queue[1..] + Parents(links, node);
      }
    }
    TraceEnds(links, v, seen);
    return Ok(Ordering.SortedSet(seen));
  }

  lemma InAll(links: seq<Link>, all: set<string>, node: string, v: string)
    requires all == set i | 0 <= i < |links| :: links[i].parent
    requires Leads(links, node, v)
    ensures node in all
  {
    var p :| Connects(links, p, node, v);
    assert Edge(links, p[0], p[1]);
  }

  lemma TraceEnds(links: seq<Link>, v: string, seen: set<string>)
    requires Traced(links, v, seen, [])
    ensures forall u :: u in seen <==> Leads(links, u, v)
  {
    forall u | Leads(links, u, v)
      ensures u in seen
    {
      var p :| Connects(links, p, u, v);
      AncestorsInside(links, seen, v, p, u);
    }
  }
}
