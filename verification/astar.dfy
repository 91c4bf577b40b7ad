/**
 * The A* path finder the smart enemy uses (AStarNode, AStarNodeComparator, AStarPathFinder).
 * Nodes live in an arena and name their parent by arena index, which stands in for Java
 * object identity; the node table maps a grid coordinate to the arena index of its node, and
 * the open list (a PriorityQueue in the source) is a sequence of arena indices from which the
 * method takes a node of least heuristic cost, any one of them on a tie.
 */
module AStar {
  import opened Base
  import opened Geometry
  import opened World

  function Abs(n: int): nat { if n < 0 then -n else n }

  /** Two grid coordinates one step apart along an axis. */
  predicate Adjacent(a: Vec, b: Vec)
  {
    (a.x == b.x && (a.y == b.y + 1 || b.y == a.y + 1)) || (a.y == b.y && (a.x == b.x + 1 || b.x == a.x + 1))
  }

  /** AStarNode.updateHeuristicCost: the Manhattan distance to the target. */
  function Heuristic(p: Vec, target: Vec): (r: nat)
    ensures r == 0 <==> p == target
    ensures Adjacent(p, target) <==> r == 1
  {
    Abs(p.x - target.x) + Abs(p.y - target.y)
  }

  /** One step along the axis never changes the heuristic by more than one. */
  lemma HeuristicStep(p: Vec, q: Vec, target: Vec)
    requires Adjacent(p, q)
    ensures Heuristic(q, target) <= Heuristic(p, target) + 1
    ensures Heuristic(p, target) <= Heuristic(q, target) + 1
  {
  }

  /** An AStarNode: `f` is a sum of heuristics along the parent chain, not g + h. */
  datatype Node = Node(coord: Vec, parent: Option<nat>, h: int, f: int, closed: bool)

  /** AStarNode.calcFCost: this node's heuristic plus the f cost of the given parent (0 for none). */
  function CalcFCost(arena: seq<Node>, n: Node, from: Option<nat>): int
    requires from.Some? ==> from.value < |arena|
  {
    n.h + (if from.None? then 0 else arena[from.value].f)
  }

  /** The AStarNode constructor: open, with its heuristic and an f cost computed from its parent. */
  function NewNode(arena: seq<Node>, parent: Option<nat>, coord: Vec, target: Vec): (n: Node)
    requires parent.Some? ==> parent.value < |arena|
    ensures !n.closed && n.coord == coord && n.parent == parent && n.h >= 0
    ensures n.h == 0 <==> coord == target
    ensures parent.None? ==> n.f == n.h
    ensures parent.Some? ==> n.f - arena[parent.value].f == n.h
  {
    var n := Node(coord, parent, Heuristic(coord, target), 0, false);
    n.(f := CalcFCost(arena, n, parent))
  }

  /**
   * AStarNodeComparator.compare as written: its first test compares node1's f cost with
   * itself, so it always holds and the f-cost branches below it are never taken.
   */
  function Compare(a: Node, b: Node): int
  {
    if a.f == a.f then
      if a.h == b.h then 0 else if a.h > b.h then 1 else -1
    else if a.f > b.f then 1 else -1
  }

  /** The comparator orders by heuristic alone: f costs never matter. */
  lemma CompareByHeuristicOnly(a: Node, b: Node, fa: int, fb: int)
    ensures Compare(a, b) == Compare(a.(f := fa), b.(f := fb))
    ensures Compare(a, b) < 0 <==> a.h < b.h
    ensures Compare(a, b) == 0 <==> a.h == b.h
    ensures Compare(a, b) > 0 <==> a.h > b.h
  {
  }

  /** The comparator is antisymmetric, as a Comparator must be. */
  lemma CompareAntisymmetric(a: Node, b: Node)
    ensures Compare(a, b) == -Compare(b, a)
  {
  }

  /** The node array, the open list and every node made so far. */
  datatype Search = Search(arena: seq<Node>, table: map<Vec, nat>, open: seq<nat>)

  /** The coordinate has a node and that node is closed. */
  predicate Closed(s: Search, c: Vec)
  {
    c in s.table && s.table[c] < |s.arena| && s.arena[s.table[c]].closed
  }

  /**
   * AStarPathFinder.shouldIgnore with the bounds test completed: a coordinate is kept only
   * when it lies on the map, its node (if any) is not closed, and the mover can walk on it.
   */
  function ShouldIgnore(w: World, s: Search, c: Vec, mover: Entity): (r: bool)
    requires WellShaped(w)
    ensures !r ==> InBounds(w, c) && CanWalkOn(w, mover, c)
  {
    !(InBounds(w, c) && !Closed(s, c) && CanWalkOn(w, mover, c))
  }

  /**
   * shouldIgnore as written: only the upper edges are tested, so a negative coordinate
   * indexes the node array out of range (None stands for the exception).
   */
  function ShouldIgnoreAsWritten(w: World, s: Search, c: Vec, mover: Entity): (r: Option<bool>)
    requires WellShaped(w)
  {
    if Width(w) > c.x && Height(w) > c.y then
      if c.x < 0 || c.y < 0 then None
      else Some(!(!Closed(s, c) && CanWalkOn(w, mover, c)))
    else Some(true)
  }

  /** On non-negative coordinates the code as written and the completed test agree. */
  lemma ShouldIgnoreAgrees(w: World, s: Search, c: Vec, mover: Entity)
    requires WellShaped(w) && c.x >= 0 && c.y >= 0
    ensures ShouldIgnoreAsWritten(w, s, c, mover) == Some(ShouldIgnore(w, s, c, mover))
  {
  }

  /**
   * The left neighbour of any node in the first column is (-1, y): the code as written
   * throws there, where the completed test simply ignores it.
   */
  lemma ShouldIgnoreLeftEdge(w: World, s: Search, y: int, mover: Entity)
    requires WellShaped(w) && 0 <= y < Height(w)
    ensures ShouldIgnoreAsWritten(w, s, Plus(Vec(0, y), DirLeft), mover).None?
    ensures ShouldIgnore(w, s, Plus(Vec(0, y), DirLeft), mover)
  {
  }

  /** Every occurrence of `i` taken out of the open list. */
  function Without(open: seq<nat>, i: nat): (r: seq<nat>)
    ensures forall x :: x in r <==> x in open && x != i
    ensures |r| <= |open|
  {
    if |open| == 0 then []
    else (if open[0] == i then [] else [open[0]]) + Without(open[1..], i)
  }

  /**
   * What holds of the search throughout: node 0 is the closed start node and the only one
   * without a parent; the table sends a coordinate to a node at that coordinate; every node
   * lies on the map, one step from its parent, is walkable unless it stands on the target,
   * and has a closed parent; the open list holds nodes that are not closed and are either
   * the table's node for their coordinate or a target node.
   */
  predicate Valid(w: World, s: Search, start: Vec, target: Vec, mover: Entity)
    requires WellShaped(w)
  {
    |s.arena| >= 1 && s.arena[0].coord == start && s.arena[0].parent.None? && s.arena[0].closed &&
    (forall k | k in s.table :: s.table[k] < |s.arena| && s.arena[s.table[k]].coord == k) &&
    (forall i | 0 <= i < |s.arena| :: InBounds(w, s.arena[i].coord)) &&
    (forall i | 0 < i < |s.arena| :: ParentOk(w, s.arena, i, target, mover)) &&
    (forall j | 0 <= j < |s.open| :: OpenOk(s, s.open[j], target))
  }

  /** Node i has a closed parent one step away, and is walkable unless on the target. */
  predicate ParentOk(w: World, arena: seq<Node>, i: nat, target: Vec, mover: Entity)
    requires WellShaped(w) && i < |arena|
  {
    arena[i].parent.Some? && arena[i].parent.value < |arena| && arena[arena[i].parent.value].closed &&
    Adjacent(arena[i].coord, arena[arena[i].parent.value].coord) &&
    (arena[i].coord == target || CanWalkOn(w, mover, arena[i].coord))
  }

  /** An open-list entry: an open node that is the table's node for its coordinate or a target node. */
  predicate OpenOk(s: Search, i: nat, target: Vec)
  {
    i < |s.arena| && !s.arena[i].closed &&
    (s.arena[i].coord == target || (s.arena[i].coord in s.table && s.table[s.arena[i].coord] == i))
  }

  /** How a neighbour step may change the arena: existing nodes keep their place, coordinate and closedness. */
  predicate Grows(s: Search, r: Search, current: nat, target: Vec)
  {
    |s.arena| <= |r.arena| &&
    (forall i | 0 <= i < |s.arena| ::
       r.arena[i].coord == s.arena[i].coord && r.arena[i].closed == s.arena[i].closed &&
       (r.arena[i].parent == s.arena[i].parent || (r.arena[i].parent == Some(current) && !s.arena[i].closed))) &&
    (forall i | |s.arena| <= i < |r.arena| :: !r.arena[i].closed && r.arena[i].parent == Some(current)) &&
    (forall k | k in s.table && k != target :: k in r.table && r.table[k] == s.table[k]) &&
    s.table.Keys <= r.table.Keys
  }

  /** Every node that is not closed waits on the open list. */
  predicate Tracked(s: Search)
  {
    forall i | 0 <= i < |s.arena| && !s.arena[i].closed :: i in s.open
  }

  /** Appending an open node one step from a closed one keeps the search valid. */
  lemma AppendValid(w: World, s: Search, n: Node, start: Vec, target: Vec, current: nat, mover: Entity)
    requires WellShaped(w) && Valid(w, s, start, target, mover)
    requires current < |s.arena| && s.arena[current].closed && Adjacent(n.coord, s.arena[current].coord)
    requires n.parent == Some(current) && !n.closed && InBounds(w, n.coord)
    requires n.coord == target || (CanWalkOn(w, mover, n.coord) && n.coord !in s.table)
    ensures Valid(w, Search(s.arena + [n], s.table[n.coord := |s.arena|], s.open + [|s.arena|]), start, target, mover)
  {
    var r := Search(s.arena + [n], s.table[n.coord := |s.arena|], s.open + [|s.arena|]);
    forall i | 0 < i < |r.arena| ensures ParentOk(w, r.arena, i, target, mover) {
      if i < |s.arena| {
        assert ParentOk(w, s.arena, i, target, mover);
      }
    }
    forall j | 0 <= j < |r.open| ensures OpenOk(r, r.open[j], target) {
      if j < |s.open| {
        assert OpenOk(s, s.open[j], target);
      }
    }
  }

  /** Re-parenting the table's open node for a coordinate to a closed neighbour keeps the search valid. */
  lemma ReparentValid(w: World, s: Search, c: Vec, start: Vec, target: Vec, current: nat, f: int, mover: Entity)
    requires WellShaped(w) && Valid(w, s, start, target, mover)
    requires current < |s.arena| && s.arena[current].closed && Adjacent(c, s.arena[current].coord)
    requires c in s.table && !s.arena[s.table[c]].closed && CanWalkOn(w, mover, c)
    ensures var i := s.table[c];
            Valid(w, Search(s.arena[i := s.arena[i].(parent := Some(current), f := f)], s.table, Without(s.open, i) + [i]),
                  start, target, mover)
  {
    var i := s.table[c];
    var r := Search(s.arena[i := s.arena[i].(parent := Some(current), f := f)], s.table, Without(s.open, i) + [i]);
    assert i != 0;
    forall k | 0 < k < |r.arena| ensures ParentOk(w, r.arena, k, target, mover) {
      if k != i {
        assert ParentOk(w, s.arena, k, target, mover);
      }
    }
    forall j | 0 <= j < |r.open| ensures OpenOk(r, r.open[j], target) {
      if r.open[j] != i {
        assert r.open[j] in s.open;
        var j' :| 0 <= j' < |s.open| && s.open[j'] == r.open[j];
        assert OpenOk(s, s.open[j'], target);
      }
    }
  }

  /**
   * AStarPathFinder.processNeighbour. The target always gets a fresh node whose f cost is
   * forced to 0, whatever lies there; any other neighbour that is not ignored gets a new node
   * or, when reaching it from `current` is strictly cheaper, is re-parented, re-costed and
   * moved to the back of the open list.
   */
  function ProcessNeighbour(w: World, s: Search, c: Vec, start: Vec, target: Vec, current: nat, mover: Entity): (r: Search)
    requires WellShaped(w) && InBounds(w, target) && Valid(w, s, start, target, mover)
    requires current < |s.arena| && s.arena[current].closed && Adjacent(c, s.arena[current].coord)
    ensures Valid(w, r, start, target, mover)
    ensures Grows(s, r, current, target)
    ensures Tracked(s) ==> Tracked(r)
    ensures c == target || (InBounds(w, c) && CanWalkOn(w, mover, c)) ==> c in r.table
    ensures c == target ==> target in r.table && r.table[target] == |s.arena| && |r.arena| == |s.arena| + 1 && r.arena[|s.arena|].f == 0
  {
    if c == target then
      var n := NewNode(s.arena, Some(current), c, target).(f := 0);
      AppendValid(w, s, n, start, target, current, mover);
      Search(s.arena + [n], s.table[c := |s.arena|], s.open + [|s.arena|])
    else if ShouldIgnore(w, s, c, mover) then s
    else if c !in s.table then
      var n := NewNode(s.arena, Some(current), c, target);
      AppendValid(w, s, n, start, target, current, mover);
      Search(s.arena + [n], s.table[c := |s.arena|], s.open + [|s.arena|])
    else
      var i := s.table[c];
      var n := s.arena[i];
      if CalcFCost(s.arena, n, Some(current)) < n.f then
        var n' := n.(parent := Some(current), f := CalcFCost(s.arena, n, Some(current)));
        ReparentValid(w, s, c, start, target, current, n'.f, mover);
        Search(s.arena[i := n'], s.table, Without(s.open, i) + [i])
      else s
  }

  /** The first position of least heuristic cost: a witness that PriorityQueue.poll has something to return. */
  function FirstLeast(arena: seq<Node>, open: seq<nat>): (k: nat)
    requires |open| > 0 && forall j | 0 <= j < |open| :: open[j] < |arena|
    ensures k < |open| && forall j | 0 <= j < |open| :: arena[open[k]].h <= arena[open[j]].h
  {
    if |open| == 1 then 0
    else
      var k := FirstLeast(arena, open[1..]);
      if arena[open[0]].h <= arena[open[1 + k]].h then 0 else 1 + k
  }

  /** Closing the polled node and taking it off the open list keeps the search valid. */
  lemma PollValid(w: World, s: Search, i: nat, start: Vec, target: Vec, mover: Entity)
    requires WellShaped(w) && Valid(w, s, start, target, mover) && i in s.open
    ensures Valid(w, Search(s.arena[i := s.arena[i].(closed := true)], s.table, Without(s.open, i)), start, target, mover)
  {
    var r := Search(s.arena[i := s.arena[i].(closed := true)], s.table, Without(s.open, i));
    forall k | 0 < k < |r.arena| ensures ParentOk(w, r.arena, k, target, mover) {
      assert ParentOk(w, s.arena, k, target, mover);
    }
    forall j | 0 <= j < |r.open| ensures OpenOk(r, r.open[j], target) {
      assert r.open[j] in s.open;
      var j' :| 0 <= j' < |s.open| && s.open[j'] == r.open[j];
      assert OpenOk(s, s.open[j'], target);
    }
  }

  /** Every closed node other than the start was closed after its parent. */
  ghost predicate RankOrdered(arena: seq<Node>, rank: map<nat, nat>)
  {
    (forall i | i in rank :: i < |arena|) &&
    (forall i | 0 <= i < |arena| :: arena[i].closed <==> i in rank) &&
    (forall i | 0 < i < |arena| && i in rank ::
       arena[i].parent.Some? && arena[i].parent.value in rank && rank[arena[i].parent.value] < rank[i])
  }

  /** ... and every rank handed out so far is below `tick`, the next one. */
  ghost predicate RankOk(arena: seq<Node>, rank: map<nat, nat>, tick: nat)
  {
    RankOrdered(arena, rank) && forall i | i in rank :: rank[i] < tick
  }

  /** A neighbour step leaves the closing order intact. */
  lemma GrowsKeepsRank(w: World, s: Search, r: Search, current: nat, start: Vec, target: Vec, mover: Entity,
                       rank: map<nat, nat>, tick: nat)
    requires WellShaped(w) && Valid(w, s, start, target, mover) && Grows(s, r, current, target)
    requires RankOk(s.arena, rank, tick)
    ensures RankOk(r.arena, rank, tick)
  {
    forall i | 0 < i < |r.arena| && i in rank
      ensures r.arena[i].parent.Some? && r.arena[i].parent.value in rank && rank[r.arena[i].parent.value] < rank[i]
    {
      assert i < |s.arena| && s.arena[i].closed;
    }
  }

  /**
   * What reconstructing a path needs: node 0 is the start and has no parent, and every
   * closed node but the start has a parent closed before it, one step away.
   */
  ghost predicate Chain(w: World, arena: seq<Node>, rank: map<nat, nat>, start: Vec, target: Vec, mover: Entity)
    requires WellShaped(w)
  {
    |arena| >= 1 && arena[0].coord == start && arena[0].parent.None? &&
    (forall i | i in rank :: i < |arena| && InBounds(w, arena[i].coord)) &&
    (forall i | 0 < i < |arena| && i in rank ::
       ParentOk(w, arena, i, target, mover) && arena[i].parent.value in rank && rank[arena[i].parent.value] < rank[i])
  }

  /** The search invariant and the closing order give a chain. */
  lemma ValidChain(w: World, s: Search, rank: map<nat, nat>, start: Vec, target: Vec, mover: Entity)
    requires WellShaped(w) && Valid(w, s, start, target, mover) && RankOrdered(s.arena, rank)
    ensures Chain(w, s.arena, rank, start, target, mover)
  {
  }

  /** Closing one more coordinate leaves fewer to close. */
  lemma SetShrinks(all: set<Vec>, closed: set<Vec>, c: Vec)
    requires c in all && c !in closed
    ensures |all - (closed + {c})| < |all - closed|
  {
    assert all - (closed + {c}) == (all - closed) - {c};
  }

  /** A sequence back to front. */
  function Reversed(s: seq<Vec>): (r: seq<Vec>)
    ensures |r| == |s| && forall k | 0 <= k < |s| :: r[k] == s[|s| - 1 - k]
  {
    if |s| == 0 then [] else Reversed(s[1..]) + [s[0]]
  }

  /** Two neighbour steps in a row change the arena no more than one does. */
  lemma GrowsTwice(a: Search, b: Search, c: Search, current: nat, target: Vec)
    requires Grows(a, b, current, target) && Grows(b, c, current, target)
    ensures Grows(a, c, current, target)
  {
  }

  /** The neighbours of a square are the four squares up, right, down and left of it. */
  lemma AdjacentCases(a: Vec, c: Vec)
    requires Adjacent(a, c)
    ensures c == Plus(a, DirUp) || c == Plus(a, DirRight) || c == Plus(a, DirDown) || c == Plus(a, DirLeft)
  {
  }

  /**
   * Node i has been expanded: each of its neighbours that is the target, or on the map and
   * walkable, has a node.
   */
  ghost predicate Expanded(w: World, s: Search, i: nat, target: Vec, mover: Entity)
    requires WellShaped(w) && i < |s.arena|
  {
    forall c | Adjacent(s.arena[i].coord, c) :: c == target || (InBounds(w, c) && CanWalkOn(w, mover, c)) ==> c in s.table
  }

  /** A node stays expanded while its coordinate stays and the table only grows. */
  lemma ExpandedKept(w: World, s: Search, r: Search, i: nat, target: Vec, mover: Entity)
    requires WellShaped(w) && i < |s.arena| && i < |r.arena| && r.arena[i].coord == s.arena[i].coord
    requires s.table.Keys <= r.table.Keys && Expanded(w, s, i, target, mover)
    ensures Expanded(w, r, i, target, mover)
  {
  }

  /** The four neighbour steps of one iteration: up, right, down, left. Afterwards the current node is expanded. */
  function Expand(w: World, s: Search, start: Vec, target: Vec, current: nat, mover: Entity): (r: Search)
    requires WellShaped(w) && InBounds(w, target) && Valid(w, s, start, target, mover)
    requires current < |s.arena| && s.arena[current].closed
    ensures Valid(w, r, start, target, mover) && Grows(s, r, current, target)
    ensures Tracked(s) ==> Tracked(r)
    ensures Expanded(w, r, current, target, mover)
  {
    var here := s.arena[current].coord;
    var s1 := ProcessNeighbour(w, s, Plus(here, DirUp), start, target, current, mover);
    var s2 := ProcessNeighbour(w, s1, Plus(here, DirRight), start, target, current, mover);
    GrowsTwice(s, s1, s2, current, target);
    var s3 := ProcessNeighbour(w, s2, Plus(here, DirDown), start, target, current, mover);
    GrowsTwice(s, s2, s3, current, target);
    var s4 := ProcessNeighbour(w, s3, Plus(here, DirLeft), start, target, current, mover);
    GrowsTwice(s, s3, s4, current, target);
    assert forall c | Adjacent(here, c) :: c == target || (InBounds(w, c) && CanWalkOn(w, mover, c)) ==> c in s4.table by {
      forall c | Adjacent(here, c) ensures c == target || (InBounds(w, c) && CanWalkOn(w, mover, c)) ==> c in s4.table {
        AdjacentCases(here, c);
      }
    }
    s4
  }

  /** The coordinates of the map. */
  ghost function AllCoords(w: World): set<Vec>
    requires WellShaped(w)
  {
    set x: int, y: int | 0 <= x < Width(w) && 0 <= y < Height(w) :: Vec(x, y)
  }

  /**
   * PriorityQueue.poll followed by setIsClosed(true): some node of least heuristic cost
   * leaves the open list and is closed.
   */
  method Poll(w: World, s: Search, start: Vec, target: Vec, mover: Entity) returns (r: Search, i: nat)
    requires WellShaped(w) && Valid(w, s, start, target, mover) && |s.open| > 0
    ensures i in s.open && OpenOk(s, i, target)
    ensures forall j | 0 <= j < |s.open| :: Compare(s.arena[i], s.arena[s.open[j]]) <= 0
    ensures r == Search(s.arena[i := s.arena[i].(closed := true)], s.table, Without(s.open, i))
    ensures Valid(w, r, start, target, mover)
  {
    forall j | 0 <= j < |s.open| ensures s.open[j] < |s.arena| {
      assert OpenOk(s, s.open[j], target);
    }
    var least := FirstLeast(s.arena, s.open);
    forall j | 0 <= j < |s.open| ensures Compare(s.arena[s.open[least]], s.arena[s.open[j]]) <= 0 {
      CompareByHeuristicOnly(s.arena[s.open[least]], s.arena[s.open[j]], 0, 0);
    }
    var k: nat :| k < |s.open| && forall j | 0 <= j < |s.open| :: Compare(s.arena[s.open[k]], s.arena[s.open[j]]) <= 0;
    i := s.open[k];
    assert OpenOk(s, i, target);
    PollValid(w, s, i, start, target, mover);
    r := Search(s.arena[i := s.arena[i].(closed := true)], s.table, Without(s.open, i));
  }

  /** Closing an open node with the next rank keeps the closing order. */
  lemma CloseKeepsRank(w: World, s: Search, i: nat, start: Vec, target: Vec, mover: Entity, rank: map<nat, nat>, tick: nat)
    requires WellShaped(w) && Valid(w, s, start, target, mover) && RankOk(s.arena, rank, tick)
    requires i < |s.arena| && !s.arena[i].closed
    ensures RankOk(s.arena[i := s.arena[i].(closed := true)], rank[i := tick], tick + 1)
  {
    assert i != 0 && ParentOk(w, s.arena, i, target, mover);
  }

  /** Closing node i keeps every other coordinate's closedness. */
  lemma CloseKeepsClosed(s: Search, i: nat, k: Vec)
    requires i < |s.arena| && Closed(s, k)
    ensures Closed(Search(s.arena[i := s.arena[i].(closed := true)], s.table, Without(s.open, i)), k)
  {
  }

  /** A neighbour step keeps every closed coordinate other than the target closed. */
  lemma GrowsKeepsClosed(s: Search, r: Search, current: nat, target: Vec, closedSet: set<Vec>)
    requires Grows(s, r, current, target)
    requires forall k | k in closedSet && k != target :: Closed(s, k)
    ensures forall k | k in closedSet && k != target :: Closed(r, k)
  {
    forall k | k in closedSet && k != target ensures Closed(r, k) {
      assert Closed(s, k);
    }
  }

  /**
   * The loop invariant of getPath: the search is valid, closed nodes are ranked by closing
   * time, and `closed` (the coordinates closed so far, a termination measure) lies on the
   * map and holds the target only once the search has stopped on it.
   */
  ghost predicate Looping(w: World, s: Search, current: Option<nat>, start: Vec, target: Vec, mover: Entity,
                          rank: map<nat, nat>, tick: nat, closed: set<Vec>)
    requires WellShaped(w)
  {
    Valid(w, s, start, target, mover) && RankOk(s.arena, rank, tick) &&
    (current.Some? ==> current.value < |s.arena| && s.arena[current.value].closed) &&
    (current == Some(0) || start != target) &&
    closed <= AllCoords(w) &&
    (forall k | k in closed && k != target :: Closed(s, k)) &&
    (target in closed ==> current.Some? && s.arena[current.value].coord == target)
  }

  /**
   * What the completeness of getPath rests on: the start has a node (unless it is the
   * target), every node that is not closed is open, every closed node but the current one has
   * been expanded, and a closed node on the target can only be the current one.
   */
  ghost predicate Complete(w: World, s: Search, current: Option<nat>, start: Vec, target: Vec, mover: Entity)
    requires WellShaped(w)
  {
    (start == target || start in s.table) && Tracked(s) &&
    (forall i | 0 <= i < |s.arena| && s.arena[i].closed && current != Some(i) :: Expanded(w, s, i, target, mover)) &&
    (forall i | 0 <= i < |s.arena| && s.arena[i].closed && s.arena[i].coord == target :: current == Some(i))
  }

  /** Expanding the current node, which is not on the target, leaves every closed node expanded. */
  lemma CompleteAfterExpand(w: World, s: Search, r: Search, current: nat, start: Vec, target: Vec, mover: Entity)
    requires WellShaped(w) && Complete(w, s, Some(current), start, target, mover)
    requires current < |s.arena| && s.arena[current].coord != target
    requires Grows(s, r, current, target) && Tracked(r) && Expanded(w, r, current, target, mover)
    ensures Complete(w, r, None, start, target, mover)
  {
    forall i | 0 <= i < |r.arena| && r.arena[i].closed ensures Expanded(w, r, i, target, mover) {
      if i != current {
        ExpandedKept(w, s, r, i, target, mover);
      }
    }
  }

  /** Polling and closing an open node makes it the current one and keeps the rest expanded. */
  lemma CompleteAfterPoll(w: World, s: Search, i: nat, start: Vec, target: Vec, mover: Entity)
    requires WellShaped(w) && Complete(w, s, None, start, target, mover) && i < |s.arena| && i in s.open
    ensures Complete(w, Search(s.arena[i := s.arena[i].(closed := true)], s.table, Without(s.open, i)), Some(i), start, target, mover)
  {
    var r := Search(s.arena[i := s.arena[i].(closed := true)], s.table, Without(s.open, i));
    forall j | 0 <= j < |r.arena| && r.arena[j].closed && j != i ensures Expanded(w, r, j, target, mover) {
      ExpandedKept(w, s, r, j, target, mover);
    }
  }

  /**
   * The search ran dry: the open list is empty, the target has no node, and the coordinates
   * with nodes are closed under steps to the target or to walkable squares on the map.
   */
  ghost predicate Exhausted(w: World, s: Search, target: Vec, mover: Entity)
    requires WellShaped(w)
  {
    s.open == [] && target !in s.table &&
    forall c, c' | c in s.table && Adjacent(c, c') :: c' == target || (InBounds(w, c') && CanWalkOn(w, mover, c')) ==> c' in s.table
  }

  /** An empty open list with every node tracked and expanded is an exhausted search. */
  lemma ExhaustedAtEnd(w: World, s: Search, start: Vec, target: Vec, mover: Entity)
    requires WellShaped(w) && Valid(w, s, start, target, mover) && Complete(w, s, None, start, target, mover) && s.open == []
    ensures Exhausted(w, s, target, mover)
  {
    forall i | 0 <= i < |s.arena| ensures s.arena[i].closed {
      assert !s.arena[i].closed ==> i in s.open;
    }
    forall k | k in s.table ensures k != target {
      assert s.arena[s.table[k]].closed && s.arena[s.table[k]].coord == k;
    }
    forall c, c' | c in s.table && Adjacent(c, c') && (c' == target || (InBounds(w, c') && CanWalkOn(w, mover, c')))
      ensures c' in s.table
    {
      var k := s.table[c];
      assert s.arena[k].closed && s.arena[k].coord == c;
      assert Expanded(w, s, k, target, mover);
    }
  }

  /** One pass of the main loop: expand the current node, then poll (None when the open list is empty). */
  method Iterate(w: World, s: Search, current: nat, start: Vec, target: Vec, mover: Entity,
                 ghost rank: map<nat, nat>, ghost tick: nat, ghost closed: set<Vec>)
    returns (s': Search, current': Option<nat>, ghost rank': map<nat, nat>, ghost tick': nat, ghost closed': set<Vec>)
    requires WellShaped(w) && InBounds(w, target)
    requires Looping(w, s, Some(current), start, target, mover, rank, tick, closed)
    requires s.arena[current].coord != target
    requires Complete(w, s, Some(current), start, target, mover)
    ensures Looping(w, s', current', start, target, mover, rank', tick', closed')
    ensures Complete(w, s', current', start, target, mover) && (current'.None? ==> s'.open == [])
    ensures |AllCoords(w) - closed'| < |AllCoords(w) - closed| || (closed' == closed && current'.None?)
  {
    var s1 := Expand(w, s, start, target, current, mover);
    GrowsKeepsRank(w, s, s1, current, start, target, mover, rank, tick);
    GrowsKeepsClosed(s, s1, current, target, closed);
    CompleteAfterExpand(w, s, s1, current, start, target, mover);
    if |s1.open| == 0 {
      s', current', rank', tick', closed' := s1, None, rank, tick, closed;
    } else {
      s', current', rank', tick', closed' := Advance(w, s1, start, target, mover, rank, tick, closed);
    }
  }

  /** The polling half of one pass: the polled node is closed with the next rank and its coordinate joins `closed`. */
  method Advance(w: World, s: Search, start: Vec, target: Vec, mover: Entity,
                 ghost rank: map<nat, nat>, ghost tick: nat, ghost closed: set<Vec>)
    returns (s': Search, current': Option<nat>, ghost rank': map<nat, nat>, ghost tick': nat, ghost closed': set<Vec>)
    requires WellShaped(w) && |s.open| > 0 && start != target
    requires Valid(w, s, start, target, mover) && RankOk(s.arena, rank, tick)
    requires closed <= AllCoords(w) && target !in closed && (forall k | k in closed && k != target :: Closed(s, k))
    requires Complete(w, s, None, start, target, mover)
    ensures Looping(w, s', current', start, target, mover, rank', tick', closed')
    ensures Complete(w, s', current', start, target, mover)
    ensures current'.Some? && |AllCoords(w) - closed'| < |AllCoords(w) - closed|
  {
    var s2, i := Poll(w, s, start, target, mover);
    CompleteAfterPoll(w, s, i, start, target, mover);
    var c := s.arena[i].coord;
    assert c !in closed;
    CloseKeepsRank(w, s, i, start, target, mover, rank, tick);
    forall k | k in closed && k != target ensures Closed(s2, k) {
      CloseKeepsClosed(s, i, k);
    }
    SetShrinks(AllCoords(w), closed, c);
    assert i != 0;
    s', current', rank', tick', closed' := s2, Some(i), rank[i := tick], tick + 1, closed + {c};
  }

  /**
   * The main loop of getPath: expand the current node, then poll the open list and close
   * what it yields, until the polled node is on the target or the list is empty (None).
   */
  method SearchLoop(w: World, start: Vec, target: Vec, mover: Entity) returns (s: Search, current: Option<nat>, ghost rank: map<nat, nat>)
    requires WellShaped(w) && InBounds(w, start) && InBounds(w, target)
    ensures Valid(w, s, start, target, mover) && RankOrdered(s.arena, rank)
    ensures current.Some? ==> current.value < |s.arena| && current.value in rank && s.arena[current.value].coord == target
    ensures current.None? ==> Exhausted(w, s, target, mover) && start in s.table
    ensures start == target ==> current == Some(0)
  {
    s := Search([NewNode([], None, start, target).(closed := true)], map[start := 0], []);
    current := Some(0);
    rank := map[0 := 0];
    ghost var tick: nat := 1;
    ghost var closed: set<Vec> := {start};
    assert start in AllCoords(w);
    while current.Some? && s.arena[current.value].coord != target
      invariant Looping(w, s, current, start, target, mover, rank, tick, closed)
      invariant Complete(w, s, current, start, target, mover) && (current.None? ==> s.open == [])
      decreases |AllCoords(w) - closed|, if current.Some? then 1 else 0
    {
      s, current, rank, tick, closed := Iterate(w, s, current.value, start, target, mover, rank, tick, closed);
    }
    if current.None? {
      ExhaustedAtEnd(w, s, start, target, mover);
    }
  }

  /** A run of coordinates, each a step from the next, all on the map and walkable unless on the target. */
  predicate Trail(w: World, steps: seq<Vec>, target: Vec, mover: Entity)
    requires WellShaped(w)
  {
    (forall k | 0 <= k < |steps| - 1 :: Adjacent(steps[k], steps[k + 1])) &&
    (forall k | 0 <= k < |steps| :: InBounds(w, steps[k]) && (steps[k] == target || CanWalkOn(w, mover, steps[k])))
  }

  /**
   * A walk from `start` (left out) whose squares are on the map and walkable (or the target),
   * each a step from the one before, ending next to the target.
   */
  predicate Leads(w: World, mover: Entity, start: Vec, target: Vec, walk: seq<Vec>)
    requires WellShaped(w)
  {
    Trail(w, walk, target, mover) && (|walk| > 0 ==> Adjacent(start, walk[0])) &&
    Adjacent(if |walk| == 0 then start else walk[|walk| - 1], target)
  }

  /** The target can be reached from the start by 4-connected steps the mover can take. */
  ghost predicate Reachable(w: World, mover: Entity, start: Vec, target: Vec)
    requires WellShaped(w)
  {
    exists walk :: Leads(w, mover, start, target, walk)
  }

  /** Every square of a walk from a coordinate with a node has a node, once the search has run dry. */
  lemma {:induction false} WalkHasNodes(w: World, s: Search, start: Vec, target: Vec, mover: Entity, walk: seq<Vec>, k: nat)
    requires WellShaped(w) && Exhausted(w, s, target, mover) && start in s.table
    requires Leads(w, mover, start, target, walk) && k < |walk|
    ensures walk[k] in s.table
  {
    if k > 0 {
      WalkHasNodes(w, s, start, target, mover, walk, k - 1);
      assert Adjacent(walk[k - 1], walk[k]);
    }
  }

  /** A search that ran dry from the start proves the target unreachable. */
  lemma ExhaustedUnreachable(w: World, s: Search, start: Vec, target: Vec, mover: Entity, walk: seq<Vec>)
    requires WellShaped(w) && Exhausted(w, s, target, mover) && start in s.table
    ensures !Leads(w, mover, start, target, walk)
  {
    if Leads(w, mover, start, target, walk) && |walk| > 0 {
      WalkHasNodes(w, s, start, target, mover, walk, |walk| - 1);
    }
  }

  /** A path from the start to the target, less its last square, is a walk that leads there. */
  lemma PathLeads(w: World, mover: Entity, start: Vec, target: Vec, path: seq<Vec>)
    requires WellShaped(w) && Trail(w, path, target, mover)
    requires |path| > 0 && Adjacent(start, path[0]) && path[|path| - 1] == target
    ensures Leads(w, mover, start, target, path[..|path| - 1])
  {
    var walk := path[..|path| - 1];
    assert forall k | 0 <= k < |walk| :: walk[k] == path[k];
    if |walk| > 0 {
      assert Adjacent(path[|path| - 2], path[|path| - 1]);
    }
  }

  lemma TrailPrepend(w: World, c: Vec, steps: seq<Vec>, target: Vec, mover: Entity)
    requires WellShaped(w) && Trail(w, steps, target, mover)
    requires InBounds(w, c) && (c == target || CanWalkOn(w, mover, c))
    requires |steps| > 0 ==> Adjacent(c, steps[0])
    ensures Trail(w, [c] + steps, target, mover)
  {
    var s' := [c] + steps;
    forall k | 0 <= k < |s'| - 1 ensures Adjacent(s'[k], s'[k + 1]) {
      if k > 0 {
        assert s'[k] == steps[k - 1] && s'[k + 1] == steps[k];
      }
    }
  }

  lemma TrailReversed(w: World, steps: seq<Vec>, target: Vec, mover: Entity)
    requires WellShaped(w) && Trail(w, steps, target, mover)
    ensures Trail(w, Reversed(steps), target, mover)
  {
    var r := Reversed(steps);
    forall k | 0 <= k < |r| - 1 ensures Adjacent(r[k], r[k + 1]) {
      assert r[k] == steps[|steps| - 1 - k] && r[k + 1] == steps[|steps| - 2 - k];
    }
  }

  /**
   * The coordinates met following the parent links from node n, n's own first, stopping
   * before the start node (the only one without a parent).
   */
  function Unwind(w: World, arena: seq<Node>, ghost rank: map<nat, nat>, start: Vec, target: Vec, mover: Entity, n: nat): (r: seq<Vec>)
    requires WellShaped(w) && Chain(w, arena, rank, start, target, mover) && n in rank
    ensures Trail(w, r, target, mover)
    ensures |r| == 0 <==> n == 0
    ensures |r| > 0 ==> r[0] == arena[n].coord && Adjacent(r[|r| - 1], start)
    decreases rank[n]
  {
    if n == 0 then []
    else
      assert ParentOk(w, arena, n, target, mover);
      var p := arena[n].parent.value;
      var rest := Unwind(w, arena, rank, start, target, mover, p);
      TrailPrepend(w, arena[n].coord, rest, target, mover);
      [arena[n].coord] + rest
  }

  /**
   * The end of getPath: the parent links from the node the search stopped on, reversed, so
   * the path runs from the start (left out) to the target.
   */
  function Reconstruct(w: World, arena: seq<Node>, ghost rank: map<nat, nat>, start: Vec, target: Vec, mover: Entity, current: Option<nat>): (path: seq<Vec>)
    requires WellShaped(w) && Chain(w, arena, rank, start, target, mover)
    requires current.Some? ==> current.value in rank && arena[current.value].coord == target
    ensures current == Some(0) ==> path == []
    ensures current.Some? && current.value != 0 ==> |path| > 0
    ensures |path| > 0 ==> Adjacent(start, path[0]) && path[|path| - 1] == target
    ensures Trail(w, path, target, mover)
  {
    if current.None? then []
    else
      var back := Unwind(w, arena, rank, start, target, mover, current.value);
      TrailReversed(w, back, target, mover);
      Reversed(back)
  }

  /**
   * What getPath promises of its result: nothing when the start is the target; otherwise a
   * path exactly when the target is reachable, running from a neighbour of the start to the
   * target through squares on the map that the mover can walk on.
   */
  ghost predicate Found(w: World, start: Vec, target: Vec, mover: Entity, path: seq<Vec>)
    requires WellShaped(w)
  {
    (start == target ==> path == []) &&
    (start != target ==> (|path| > 0 <==> Reachable(w, mover, start, target))) &&
    (|path| > 0 ==> Adjacent(start, path[0]) && path[|path| - 1] == target) &&
    Trail(w, path, target, mover)
  }

  /**
   * AStarPathFinder.getPath: the coordinates from (but not including) the start to
   * (including) the target, or nothing when the start is the target or the open list runs
   * dry, which happens exactly when the target cannot be reached. Every step is to a
   * neighbouring square, and every square but the target is on the map and walkable by the
   * mover.
   */
  method GetPath(w: World, start: Vec, target: Vec, mover: Entity) returns (path: seq<Vec>)
    requires WellShaped(w) && InBounds(w, start) && InBounds(w, target)
    ensures start == target ==> path == []
    ensures start != target ==> (|path| > 0 <==> Reachable(w, mover, start, target))
    ensures |path| > 0 ==> Adjacent(start, path[0]) && path[|path| - 1] == target
    ensures Trail(w, path, target, mover)
  {
    var s, current, rank := SearchLoop(w, start, target, mover);
    ValidChain(w, s, rank, start, target, mover);
    path := Reconstruct(w, s.arena, rank, start, target, mover, current);
    if |path| > 0 {
      PathLeads(w, mover, start, target, path);
    } else if start != target {
      forall walk ensures !Leads(w, mover, start, target, walk) {
        ExhaustedUnreachable(w, s, start, target, mover, walk);
      }
    }
  }
}
