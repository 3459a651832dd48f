/** The block graph derived from signal bindings: cycle detection and the size
    of the cascade a block can root. */
module SignalGraph {
  import opened Values

  type Edges = map<BlockId, seq<BlockId>>

  function Children(edges: Edges, id: BlockId): seq<BlockId> {
    if id in edges then edges[id] else []
  }

  // ----- walks and cycles ---------------------------------------------------

  ghost predicate Walk(edges: Edges, p: seq<BlockId>) {
    |p| > 0 && forall i, j :: 0 <= i < j < |p| && j == i + 1 ==> p[j] in Children(edges, p[i])
  }

  ghost predicate ClosedWalk(edges: Edges, p: seq<BlockId>) {
    |p| >= 2 && Walk(edges, p) && p[0] == p[|p| - 1]
  }

  ghost predicate Acyclic(edges: Edges) {
    forall p :: !ClosedWalk(edges, p)
  }

  /** `rank` falls along every edge. */
  ghost predicate Ranks(edges: Edges, rank: BlockId -> nat) {
    forall a, c :: c in Children(edges, a) ==> rank(c) < rank(a)
  }

  lemma {:induction false} RankFallsAlongWalk(edges: Edges, rank: BlockId -> nat, p: seq<BlockId>)
    requires Ranks(edges, rank) && Walk(edges, p)
    ensures |p| >= 2 ==> rank(p[|p| - 1]) < rank(p[0])
    decreases |p|
  {
    if |p| == 2 {
      assert p[1] in Children(edges, p[0]);
    } else if |p| > 2 {
      assert p[1] in Children(edges, p[0]);
      var q := p[1..];
      RankFallsAlongWalk(edges, rank, q);
    }
  }

  lemma RankedIsAcyclic(edges: Edges, rank: BlockId -> nat)
    requires Ranks(edges, rank)
    ensures Acyclic(edges)
  {
    forall p ensures !ClosedWalk(edges, p) {
      if ClosedWalk(edges, p) {
        RankFallsAlongWalk(edges, rank, p);
      }
    }
  }

  // ----- depth-first cycle detection ----------------------------------------

  /** Every edge stays inside `universe`. */
  ghost predicate ClosedUnder(edges: Edges, universe: set<BlockId>) {
    edges.Keys <= universe && forall a, c :: a in edges && c in edges[a] ==> c in universe
  }

  /** What holds between calls of the search: nodes on the current path are
      `visiting`, finished nodes carry a rank above all their children. */
  ghost predicate Searching(edges: Edges, universe: set<BlockId>, visiting: set<BlockId>,
                            visited: set<BlockId>, path: seq<BlockId>, finished: map<BlockId, nat>)
  {
    && visited <= universe
    && visited == visiting + finished.Keys
    && visiting !! finished.Keys
    && (forall x :: x in visiting <==> x in path)
    && (path != [] ==> Walk(edges, path))
    && Finished(edges, finished)
  }

  ghost predicate Finished(edges: Edges, finished: map<BlockId, nat>) {
    forall a, c :: a in finished && c in Children(edges, a) ==> c in finished && finished[c] < finished[a]
  }

  /** A rank above every one of `ids`. */
  ghost function Above(finished: map<BlockId, nat>, ids: seq<BlockId>): (r: nat)
    requires forall c :: c in ids ==> c in finished
    ensures forall c :: c in ids ==> finished[c] < r
  {
    if ids == [] then 0
    else
      var rest := Above(finished, ids[1..]);
      if finished[ids[0]] < rest then rest else finished[ids[0]] + 1
  }

  ghost predicate Extends(a: map<BlockId, nat>, b: map<BlockId, nat>) {
    forall k :: k in a ==> k in b && b[k] == a[k]
  }

  function FirstIndex(path: seq<BlockId>, id: BlockId): (r: nat)
    requires id in path
    ensures r < |path| && path[r] == id
  {
    if path[0] == id then 0 else FirstIndex(path[1..], id) + 1
  }

  lemma CycleCloses(edges: Edges, path: seq<BlockId>, id: BlockId, start: nat)
    requires start < |path| && path[start] == id
    requires Walk(edges, path) && id in Children(edges, path[|path| - 1])
    ensures ClosedWalk(edges, path[start..] + [id])
  {
    var cycle := path[start..] + [id];
    forall i, j | 0 <= i < j < |cycle| && j == i + 1 ensures cycle[j] in Children(edges, cycle[i]) {
      if j < |path[start..]| {
        assert cycle[i] == path[start + i] && cycle[j] == path[start + j];
      } else {
        assert cycle[i] == path[|path| - 1] && cycle[j] == id;
      }
    }
  }

  lemma EnterNode(edges: Edges, universe: set<BlockId>, visiting: set<BlockId>, visited: set<BlockId>,
                  path: seq<BlockId>, finished: map<BlockId, nat>, id: BlockId)
    requires Searching(edges, universe, visiting, visited, path, finished)
    requires id in universe && id !in visited
    requires path != [] ==> id in Children(edges, path[|path| - 1])
    ensures Searching(edges, universe, visiting + {id}, visited + {id}, path + [id], finished)
  {
  }

  lemma LeaveNode(edges: Edges, universe: set<BlockId>, visiting: set<BlockId>, visited: set<BlockId>,
                  path: seq<BlockId>, finished: map<BlockId, nat>, id: BlockId)
    requires id !in visiting && (forall x :: x in visiting <==> x in path)
    requires Searching(edges, universe, visiting + {id}, visited, path + [id], finished)
    requires forall c :: c in Children(edges, id) ==> c in finished
    ensures Searching(edges, universe, visiting, visited, path, finished[id := Above(finished, Children(edges, id))])
    ensures Extends(finished, finished[id := Above(finished, Children(edges, id))])
  {
    var entered := path + [id];
    assert id in visiting + {id};
    if path != [] {
      forall i, j | 0 <= i < j < |path| && j == i + 1 ensures path[j] in Children(edges, path[i]) {
        assert entered[j] in Children(edges, entered[i]);
      }
    }
  }

  /** One recursive visit. A returned cycle is the walk that was found;
      otherwise `id` and everything below it is finished. */
  method Visit(id: BlockId, edges: Edges, visiting0: set<BlockId>, visited0: set<BlockId>,
               path0: seq<BlockId>, ghost universe: set<BlockId>, ghost finished0: map<BlockId, nat>)
    returns (cycle: Option<seq<BlockId>>, visiting: set<BlockId>, visited: set<BlockId>,
             path: seq<BlockId>, ghost finished: map<BlockId, nat>)
    requires ClosedUnder(edges, universe) && id in universe
    requires Searching(edges, universe, visiting0, visited0, path0, finished0)
    requires path0 != [] ==> id in Children(edges, path0[|path0| - 1])
    ensures cycle.Some? ==> ClosedWalk(edges, cycle.value)
    ensures cycle.None? ==>
              && Searching(edges, universe, visiting, visited, path, finished)
              && visiting == visiting0 && path == path0 && visited0 <= visited
              && Extends(finished0, finished) && id in finished
    decreases universe - visited0, 1, 0
  {
    visiting, visited, path, finished := visiting0, visited0, path0, finished0;
    if id in visiting {
      var start := FirstIndex(path, id);
      CycleCloses(edges, path, id, start);
      return Some(path[start..] + [id]), visiting, visited, path, finished;
    }
    if !(id in visited) {
      EnterNode(edges, universe, visiting, visited, path, finished, id);
      cycle, visiting, visited, path, finished :=
        VisitChildren(id, edges, visiting + {id}, visited + {id}, path + [id], universe, finished);
      if cycle.Some? {
        return cycle, visiting, visited, path, finished;
      }
      path := path[..|path| - 1];
      assert path == path0;
      visiting := visiting - {id};
      assert visiting == visiting0;
      LeaveNode(edges, universe, visiting, visited, path, finished, id);
      finished := finished[id := Above(finished, Children(edges, id))];
    }
    cycle := None;
  }

  /** The loop of `Visit` over the children of the node at the end of `path0`. */
  method VisitChildren(id: BlockId, edges: Edges, visiting0: set<BlockId>, visited0: set<BlockId>,
                       path0: seq<BlockId>, ghost universe: set<BlockId>, ghost finished0: map<BlockId, nat>)
    returns (cycle: Option<seq<BlockId>>, visiting: set<BlockId>, visited: set<BlockId>,
             path: seq<BlockId>, ghost finished: map<BlockId, nat>)
    requires ClosedUnder(edges, universe)
    requires Searching(edges, universe, visiting0, visited0, path0, finished0)
    requires path0 != [] && path0[|path0| - 1] == id
    ensures cycle.Some? ==> ClosedWalk(edges, cycle.value)
    ensures cycle.None? ==>
              && Searching(edges, universe, visiting, visited, path, finished)
              && visiting == visiting0 && path == path0 && visited0 <= visited
              && Extends(finished0, finished)
              && forall c :: c in Children(edges, id) ==> c in finished
    decreases universe - visited0, 2
  {
    visiting, visited, path, finished := visiting0, visited0, path0, finished0;
    var children := Children(edges, id);
    var i := 0;
    while i < |children|
      invariant 0 <= i <= |children|
      invariant Searching(edges, universe, visiting, visited, path, finished)
      invariant visiting == visiting0 && path == path0 && visited0 <= visited
      invariant Extends(finished0, finished)
      invariant forall j :: 0 <= j < i ==> children[j] in finished
    {
      cycle, visiting, visited, path, finished :=
        Visit(children[i], edges, visiting, visited, path, universe, finished);
      if cycle.Some? {
        return cycle, visiting, visited, path, finished;
      }
      i := i + 1;
    }
    cycle := None;
  }

  /** Rejects exactly the graphs with a closed walk. */
  method DetectSignalCycle(ids: seq<BlockId>, edges: Edges) returns (cycle: Option<seq<BlockId>>)
    requires ClosedUnder(edges, set x | x in ids)
    ensures cycle.None? <==> Acyclic(edges)
    ensures cycle.None? ==> exists rank :: Ranks(edges, rank)
    ensures cycle.Some? ==> ClosedWalk(edges, cycle.value)
  {
    ghost var universe := set x | x in ids;
    var visiting: set<BlockId>, visited: set<BlockId>, path: seq<BlockId> := {}, {}, [];
    ghost var finished: map<BlockId, nat> := map[];
    var i := 0;
    while i < |ids|
      invariant 0 <= i <= |ids|
      invariant Searching(edges, universe, visiting, visited, path, finished) && path == [] && visiting == {}
      invariant forall j :: 0 <= j < i ==> ids[j] in finished
    {
      if ids[i] !in visited {
        ghost var before := finished;
        var found: Option<seq<BlockId>>;
        found, visiting, visited, path, finished :=
          Visit(ids[i], edges, visiting, visited, path, universe, finished);
        if found.Some? {
          return found;
        }
        assert forall j :: 0 <= j < i ==> ids[j] in before;
      }
      i := i + 1;
    }
    ghost var rank := (x: BlockId) => if x in finished then finished[x] else 0;
    forall a, c | c in Children(edges, a) ensures rank(c) < rank(a) {
      assert a in universe;
      assert a in finished;
    }
    assert Ranks(edges, rank);
    RankedIsAcyclic(edges, rank);
    return None;
  }

  // ----- the unfolded cascade -----------------------------------------------

  /** The cascade a block roots when every signal changes and every consumer
      runs: one node per execution. */
  datatype Tree = Node(id: BlockId, children: seq<Tree>)

  ghost predicate Unfolds(edges: Edges, t: Tree) {
    && |t.children| == |Children(edges, t.id)|
    && forall i :: 0 <= i < |t.children| ==>
         t.children[i].id == Children(edges, t.id)[i] && Unfolds(edges, t.children[i])
  }

  function NodeCount(t: Tree): nat {
    1 + NodeCounts(t.children)
  }

  function NodeCounts(ts: seq<Tree>): nat {
    if ts == [] then 0 else NodeCount(ts[0]) + NodeCounts(ts[1..])
  }

  ghost function Unfold(edges: Edges, rank: BlockId -> nat, id: BlockId): (t: Tree)
    requires Ranks(edges, rank)
    ensures t.id == id && Unfolds(edges, t)
    decreases rank(id)
  {
    var cs := Children(edges, id);
    Node(id, seq(|cs|, i requires 0 <= i < |cs| => assert cs[i] in Children(edges, id); Unfold(edges, rank, cs[i])))
  }

  /** There is one unfolding of each node, whatever the ranking. */
  lemma {:induction false} UnfoldUnique(edges: Edges, rank: BlockId -> nat, t: Tree)
    requires Ranks(edges, rank) && Unfolds(edges, t)
    ensures t == Unfold(edges, rank, t.id)
    decreases t
  {
    var u := Unfold(edges, rank, t.id);
    forall i | 0 <= i < |t.children| ensures t.children[i] == u.children[i] {
      UnfoldUnique(edges, rank, t.children[i]);
    }
    assert t.children == u.children;
  }

  ghost function TreeSize(edges: Edges, rank: BlockId -> nat, id: BlockId): nat
    requires Ranks(edges, rank)
  {
    NodeCount(Unfold(edges, rank, id))
  }

  ghost function SumSizes(edges: Edges, rank: BlockId -> nat, ids: seq<BlockId>): nat
    requires Ranks(edges, rank)
  {
    if ids == [] then 0 else TreeSize(edges, rank, ids[0]) + SumSizes(edges, rank, ids[1..])
  }

  lemma {:induction false} CountsAreSums(edges: Edges, rank: BlockId -> nat, ids: seq<BlockId>, ts: seq<Tree>)
    requires Ranks(edges, rank) && |ids| == |ts|
    requires forall i :: 0 <= i < |ids| ==> ts[i] == Unfold(edges, rank, ids[i])
    ensures NodeCounts(ts) == SumSizes(edges, rank, ids)
    decreases |ids|
  {
    if ids != [] {
      CountsAreSums(edges, rank, ids[1..], ts[1..]);
    }
  }

  lemma TreeSizeUnfolds(edges: Edges, rank: BlockId -> nat, id: BlockId)
    requires Ranks(edges, rank)
    ensures TreeSize(edges, rank, id) == 1 + SumSizes(edges, rank, Children(edges, id))
  {
    CountsAreSums(edges, rank, Children(edges, id), Unfold(edges, rank, id).children);
  }

  lemma {:induction false} SumSizesSnoc(edges: Edges, rank: BlockId -> nat, ids: seq<BlockId>, last: BlockId)
    requires Ranks(edges, rank)
    ensures SumSizes(edges, rank, ids + [last]) == SumSizes(edges, rank, ids) + TreeSize(edges, rank, last)
    decreases |ids|
  {
    if ids == [] {
      assert [last][1..] == [];
    } else {
      assert (ids + [last])[1..] == ids[1..] + [last];
      SumSizesSnoc(edges, rank, ids[1..], last);
    }
  }

  /** The memoised count. Repeated edges count once per repetition. */
  method CascadeSize(id: BlockId, edges: Edges, memo0: map<BlockId, nat>, ghost rank: BlockId -> nat)
    returns (size: nat, memo: map<BlockId, nat>)
    requires Ranks(edges, rank)
    requires forall k :: k in memo0 ==> memo0[k] == TreeSize(edges, rank, k)
    ensures size == TreeSize(edges, rank, id)
    ensures forall t :: Unfolds(edges, t) && t.id == id ==> size == NodeCount(t)
    ensures forall k :: k in memo ==> memo[k] == TreeSize(edges, rank, k)
    decreases rank(id)
  {
    forall t | Unfolds(edges, t) && t.id == id ensures NodeCount(t) == TreeSize(edges, rank, id) {
      UnfoldUnique(edges, rank, t);
    }
    memo := memo0;
    if id in memo {
      return memo[id], memo;
    }
    var children := Children(edges, id);
    var total := 0;
    var i := 0;
    while i < |children|
      invariant 0 <= i <= |children|
      invariant total == SumSizes(edges, rank, children[..i])
      invariant forall k :: k in memo ==> memo[k] == TreeSize(edges, rank, k)
    {
      assert children[i] in Children(edges, id);
      var size_i;
      size_i, memo := CascadeSize(children[i], edges, memo, rank);
      assert children[..i + 1] == children[..i] + [children[i]];
      SumSizesSnoc(edges, rank, children[..i], children[i]);
      total := total + size_i;
      i := i + 1;
    }
    assert children[..|children|] == children;
    TreeSizeUnfolds(edges, rank, id);
    size := 1 + total;
    memo := memo[id := size];
  }
}
