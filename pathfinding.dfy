/**
 * A* search on the walkability grid (components/GameCanvas.tsx, findPath).
 *
 * The source allocates one GridNode object per discovered cell, keeps the
 * open list as an array of references to them, sorts it by f and shifts its
 * head, updates a node found in the open list in place, and rebuilds the path
 * from parent references. Here the node objects live in an arena
 * `nodes: seq<Node>`; a reference is an arena index (parent -1 is null), the
 * open list is a sequence of indices, and an in-place update of a node is an
 * update of its arena slot, so every holder of the reference sees it.
 */
module Pathfinding {
  import opened Types
  import opened Grid

  datatype Node = Node(x: int, y: int, f: int, g: int, h: int, parent: int)

  function CellOf(n: Node): Cell { Cell(n.x, n.y) }

  function Abs(k: int): nat { if k < 0 then -k else k }

  /** Two cells one orthogonal step apart. */
  predicate Adjacent(a: Cell, b: Cell)
  {
    Abs(a.x - b.x) + Abs(a.y - b.y) == 1
  }

  /** The neighbour offsets in the order the source visits them: up, down, left, right. */
  const NEIGHBOR_DX: seq<int> := [0, 0, -1, 1]
  const NEIGHBOR_DY: seq<int> := [-1, 1, 0, 0]

  function Step(c: Cell, d: int): (n: Cell)
    requires 0 <= d < 4
    ensures Adjacent(c, n)
  {
    Cell(c.x + NEIGHBOR_DX[d], c.y + NEIGHBOR_DY[d])
  }

  lemma AdjacentIsStep(a: Cell, b: Cell) returns (d: int)
    requires Adjacent(a, b)
    ensures 0 <= d < 4 && b == Step(a, d)
  {
    if b.y < a.y { d := 0; }
    else if b.y > a.y { d := 1; }
    else if b.x < a.x { d := 2; }
    else { d := 3; }
  }

  /** The cells of the grid; the closed set is a subset of it. */
  function AllCells(): set<Cell>
  {
    set x, y | 0 <= x < GRID_COLS && 0 <= y < GRID_ROWS :: Cell(x, y)
  }

  lemma InAllCells(c: Cell)
    requires InGrid(c)
    ensures c in AllCells()
  {
    var x, y := c.x, c.y;
    assert Cell(x, y) in AllCells();
  }

  // ---------------------------------------------------------------------
  // The sort of the open list: a stable sort by f (Array.prototype.sort is
  // stable), written as insertion of each element after the elements whose f
  // is not larger.

  ghost predicate Indices(s: seq<nat>, nodes: seq<Node>)
  {
    forall k | 0 <= k < |s| :: s[k] < |nodes|
  }

  ghost predicate SortedByF(s: seq<nat>, nodes: seq<Node>)
    requires Indices(s, nodes)
  {
    forall k, l | 0 <= k < l < |s| :: nodes[s[k]].f <= nodes[s[l]].f
  }

  function InsertByF(i: nat, s: seq<nat>, nodes: seq<Node>): (r: seq<nat>)
    requires i < |nodes| && Indices(s, nodes)
    ensures multiset(r) == multiset(s) + multiset{i}
    ensures Indices(r, nodes)
  {
    if s == [] then [i]
    else if nodes[i].f < nodes[s[0]].f then [i] + s
    else
      assert s == [s[0]] + s[1..];
      [s[0]] + InsertByF(i, s[1..], nodes)
  }

  /** A lower bound on f of the inserted element and of s bounds the result. */
  lemma {:induction false} InsertLowerBound(i: nat, s: seq<nat>, nodes: seq<Node>, b: int)
    requires i < |nodes| && Indices(s, nodes)
    requires b <= nodes[i].f && forall k | 0 <= k < |s| :: b <= nodes[s[k]].f
    ensures forall k | 0 <= k < |InsertByF(i, s, nodes)| :: b <= nodes[InsertByF(i, s, nodes)[k]].f
  {
    var r := InsertByF(i, s, nodes);
    if s == [] {
      assert r == [i];
    } else if nodes[i].f < nodes[s[0]].f {
      assert r == [i] + s;
      forall k | 0 < k < |r| ensures b <= nodes[r[k]].f {
        assert r[k] == s[k - 1];
      }
    } else {
      var t := InsertByF(i, s[1..], nodes);
      InsertLowerBound(i, s[1..], nodes, b);
      assert r == [s[0]] + t;
      forall k | 0 < k < |r| ensures b <= nodes[r[k]].f {
        assert r[k] == t[k - 1];
      }
    }
  }

  /** Insertion keeps a sorted open list sorted. */
  lemma {:induction false} InsertSorted(i: nat, s: seq<nat>, nodes: seq<Node>)
    requires i < |nodes| && Indices(s, nodes) && SortedByF(s, nodes)
    ensures SortedByF(InsertByF(i, s, nodes), nodes)
  {
    if s == [] {
      assert InsertByF(i, s, nodes) == [i];
    } else if nodes[i].f < nodes[s[0]].f {
      forall k | 0 <= k < |s| ensures nodes[i].f <= nodes[s[k]].f {
        assert k == 0 || nodes[s[0]].f <= nodes[s[k]].f;
      }
      ConsSorted(i, s, nodes);
      assert InsertByF(i, s, nodes) == [i] + s;
    } else {
      var t := InsertByF(i, s[1..], nodes);
      InsertSorted(i, s[1..], nodes);
      InsertLowerBound(i, s[1..], nodes, nodes[s[0]].f);
      ConsSorted(s[0], t, nodes);
      assert InsertByF(i, s, nodes) == [s[0]] + t;
    }
  }

  /** A sorted list stays sorted behind a head whose f bounds it from below. */
  lemma ConsSorted(x: nat, t: seq<nat>, nodes: seq<Node>)
    requires x < |nodes| && Indices(t, nodes) && SortedByF(t, nodes)
    requires forall k | 0 <= k < |t| :: nodes[x].f <= nodes[t[k]].f
    ensures Indices([x] + t, nodes) && SortedByF([x] + t, nodes)
  {
    var r := [x] + t;
    forall k, l | 0 <= k < l < |r| ensures nodes[r[k]].f <= nodes[r[l]].f {
      assert r[l] == t[l - 1];
      if k > 0 {
        assert r[k] == t[k - 1];
      }
    }
  }

  /** The open list after `openList.sort((a, b) => a.f - b.f)`. */
  function SortByF(s: seq<nat>, nodes: seq<Node>): (r: seq<nat>)
    requires Indices(s, nodes)
    ensures multiset(r) == multiset(s)
    ensures Indices(r, nodes)
  {
    if s == [] then []
    else
      assert s == s[..|s| - 1] + [s[|s| - 1]];
      InsertByF(s[|s| - 1], SortByF(s[..|s| - 1], nodes), nodes)
  }

  /** The sorted open list is ordered by f, so its head has the least f of the open nodes. */
  lemma {:induction false} SortSorted(s: seq<nat>, nodes: seq<Node>)
    requires Indices(s, nodes)
    ensures SortedByF(SortByF(s, nodes), nodes)
  {
    if s != [] {
      SortSorted(s[..|s| - 1], nodes);
      InsertSorted(s[|s| - 1], SortByF(s[..|s| - 1], nodes), nodes);
    }
  }

  /** `openList.find(n => n.x === c.x && n.y === c.y)`: the first open node on cell c, or -1. */
  function FindOpen(open: seq<nat>, nodes: seq<Node>, c: Cell): (k: int)
    requires Indices(open, nodes)
    ensures k == -1 <==> forall i | i in open :: CellOf(nodes[i]) != c
    ensures k != -1 ==> k in open && CellOf(nodes[k]) == c
  {
    if open == [] then -1
    else if CellOf(nodes[open[0]]) == c then open[0]
    else
      assert forall i | i in open :: i == open[0] || i in open[1..];
      FindOpen(open[1..], nodes, c)
  }

  // ---------------------------------------------------------------------
  // Invariants of the search.

  /** Node i (not the start node) has a closed, adjacent parent with a smaller g, and is walkable. */
  ghost predicate ParentOk(grid: seq<seq<bool>>, nodes: seq<Node>, closed: set<Cell>, i: int)
    requires WellShaped(grid) && 0 <= i < |nodes|
  {
    var p := nodes[i].parent;
    0 <= p < |nodes| && CellOf(nodes[p]) in closed &&
    Adjacent(CellOf(nodes[p]), CellOf(nodes[i])) && nodes[p].g < nodes[i].g &&
    Walkable(grid, CellOf(nodes[i]))
  }

  /** The node arena: the start node first, one node per cell, parent links sound. */
  ghost predicate ArenaOk(grid: seq<seq<bool>>, nodes: seq<Node>, closed: set<Cell>, sc: Cell)
    requires WellShaped(grid)
  {
    |nodes| >= 1 &&
    CellOf(nodes[0]) == sc && nodes[0].parent == -1 && nodes[0].g == 0 &&
    (forall i | 0 <= i < |nodes| :: InGrid(CellOf(nodes[i])) && nodes[i].g >= 0) &&
    (forall i | 1 <= i < |nodes| :: ParentOk(grid, nodes, closed, i)) &&
    (forall i, j | 0 <= i < j < |nodes| :: CellOf(nodes[i]) != CellOf(nodes[j]))
  }

  /** Open nodes are distinct arena nodes off the closed set; every node is open or closed. */
  ghost predicate OpenOk(nodes: seq<Node>, open: seq<nat>, closed: set<Cell>)
  {
    Indices(open, nodes) &&
    (forall i | i in open :: CellOf(nodes[i]) !in closed) &&
    (forall i :: multiset(open)[i] <= 1) &&
    (forall i | 0 <= i < |nodes| :: i in open || CellOf(nodes[i]) in closed)
  }

  ghost predicate InOpen(nodes: seq<Node>, open: seq<nat>, c: Cell)
  {
    exists i | i in open :: i < |nodes| && CellOf(nodes[i]) == c
  }

  /** A neighbour cell is outside the grid, blocked, closed, or on the open list. */
  ghost predicate Handled(grid: seq<seq<bool>>, nodes: seq<Node>, open: seq<nat>, closed: set<Cell>, n: Cell)
    requires WellShaped(grid)
  {
    !InGrid(n) || !grid[n.y][n.x] || n in closed || InOpen(nodes, open, n)
  }

  /** All four neighbours of a closed cell are handled. */
  ghost predicate Expanded(grid: seq<seq<bool>>, nodes: seq<Node>, open: seq<nat>, closed: set<Cell>, c: Cell)
    requires WellShaped(grid)
  {
    forall d | 0 <= d < 4 :: Handled(grid, nodes, open, closed, Step(c, d))
  }

  /** The invariant of the main loop. */
  ghost predicate SearchInv(grid: seq<seq<bool>>, nodes: seq<Node>, open: seq<nat>, closed: set<Cell>, sc: Cell, ec: Cell)
    requires WellShaped(grid)
  {
    InGrid(sc) && ArenaOk(grid, nodes, closed, sc) && OpenOk(nodes, open, closed) &&
    (0 in open ==> open == [0]) &&
    ec !in closed && (sc in closed || open == [0]) &&
    (forall c | c in closed :: InGrid(c)) &&
    (forall c | c in closed :: Expanded(grid, nodes, open, closed, c))
  }

  /** The invariant of the neighbour loop of node cur, after d neighbours. */
  ghost predicate ExpandInv(grid: seq<seq<bool>>, nodes: seq<Node>, open: seq<nat>, closed: set<Cell>,
                            sc: Cell, ec: Cell, cur: int, d: int)
    requires WellShaped(grid)
  {
    InGrid(sc) && ArenaOk(grid, nodes, closed, sc) && OpenOk(nodes, open, closed) &&
    0 !in open && ec !in closed && sc in closed &&
    0 <= cur < |nodes| && CellOf(nodes[cur]) in closed &&
    (forall c | c in closed :: InGrid(c)) &&
    (forall c | c in closed && c != CellOf(nodes[cur]) :: Expanded(grid, nodes, open, closed, c)) &&
    0 <= d <= 4 &&
    (forall j | 0 <= j < d :: Handled(grid, nodes, open, closed, Step(CellOf(nodes[cur]), j)))
  }

  // ---------------------------------------------------------------------
  // Preservation of the invariants, one step of the source at a time.

  /** Popping the head of the sorted open list and closing its cell. */
  lemma PopPreserves(grid: seq<seq<bool>>, nodes: seq<Node>, open: seq<nat>, closed: set<Cell>,
                     sc: Cell, ec: Cell, sorted: seq<nat>)
    requires WellShaped(grid) && SearchInv(grid, nodes, open, closed, sc, ec)
    requires |sorted| > 0 && multiset(sorted) == multiset(open) && Indices(sorted, nodes)
    requires CellOf(nodes[sorted[0]]) != ec
    ensures ExpandInv(grid, nodes, sorted[1..], closed + {CellOf(nodes[sorted[0]])}, sc, ec, sorted[0], 0)
  {
    var cur, rest := sorted[0], sorted[1..];
    var cc := CellOf(nodes[cur]);
    var closed' := closed + {cc};
    assert sorted == [cur] + rest;
    assert multiset(open) == multiset{cur} + multiset(rest);
    assert cur in multiset(open);
    assert multiset(rest)[cur] == 0;
    forall i | i in rest ensures i in open && i != cur {
      assert i in multiset(rest);
      assert i in multiset(open);
    }
    forall i | i in open && i != cur ensures i in rest {
      assert i in multiset(open);
    }
    forall i | 1 <= i < |nodes| ensures ParentOk(grid, nodes, closed', i) {
      assert ParentOk(grid, nodes, closed, i);
    }
    forall i | i in rest ensures CellOf(nodes[i]) !in closed' {
      assert i != cur;
    }
    if open == [0] {
      assert sorted == [0];
    }
    forall c | c in closed' && c != cc ensures Expanded(grid, nodes, rest, closed', c) {
      assert Expanded(grid, nodes, open, closed, c);
      forall d | 0 <= d < 4 ensures Handled(grid, nodes, rest, closed', Step(c, d)) {
        var n := Step(c, d);
        assert Handled(grid, nodes, open, closed, n);
        if InGrid(n) && grid[n.y][n.x] && n !in closed' {
          var i :| i in open && i < |nodes| && CellOf(nodes[i]) == n;
          assert i != cur;
          assert i in rest;
        }
      }
    }
    assert ArenaOk(grid, nodes, closed', sc);
    assert Indices(rest, nodes);
    assert forall i | i in rest :: CellOf(nodes[i]) !in closed';
    forall i ensures multiset(rest)[i] <= 1 {
      assert multiset(rest)[i] <= multiset(open)[i];
    }
    assert forall i | 0 <= i < |nodes| :: i in rest || CellOf(nodes[i]) in closed';
    assert 0 !in rest;
    assert sc in closed';
    assert forall c | c in closed' :: InGrid(c);
  }

  /** A neighbour already on the open list gets a better g and the current node as parent. */
  lemma UpdatePreserves(grid: seq<seq<bool>>, nodes: seq<Node>, open: seq<nat>, closed: set<Cell>,
                        sc: Cell, ec: Cell, cur: int, d: int, k: nat, gScore: int, fScore: int)
    requires WellShaped(grid) && ExpandInv(grid, nodes, open, closed, sc, ec, cur, d) && d < 4
    requires k in open && CellOf(nodes[k]) == Step(CellOf(nodes[cur]), d)
    requires Walkable(grid, CellOf(nodes[k]))
    requires gScore == nodes[cur].g + 1 && gScore < nodes[k].g
    ensures ExpandInv(grid, nodes[k := nodes[k].(g := gScore, f := fScore, parent := cur)],
                      open, closed, sc, ec, cur, d + 1)
  {
    var nodes' := nodes[k := nodes[k].(g := gScore, f := fScore, parent := cur)];
    assert k != 0 && k != cur;
    forall i | 0 <= i < |nodes'| ensures CellOf(nodes'[i]) == CellOf(nodes[i]) { }
    forall i | 1 <= i < |nodes'| ensures ParentOk(grid, nodes', closed, i) {
      if i != k {
        assert ParentOk(grid, nodes, closed, i);
        assert nodes[i].parent != k;
      }
    }
    forall c | c in closed ensures Expanded(grid, nodes', open, closed, c) == Expanded(grid, nodes, open, closed, c) {
      forall j | 0 <= j < 4 ensures InOpen(nodes', open, Step(c, j)) == InOpen(nodes, open, Step(c, j)) {
      }
    }
    forall j | 0 <= j < d + 1 ensures Handled(grid, nodes', open, closed, Step(CellOf(nodes'[cur]), j)) {
      var n := Step(CellOf(nodes[cur]), j);
      if j < d {
        assert Handled(grid, nodes, open, closed, n);
        assert InOpen(nodes', open, n) == InOpen(nodes, open, n);
      } else {
        assert CellOf(nodes'[k]) == n;
      }
    }
  }

  /** A neighbour seen for the first time becomes a new node at the end of the open list. */
  lemma PushPreserves(grid: seq<seq<bool>>, nodes: seq<Node>, open: seq<nat>, closed: set<Cell>,
                      sc: Cell, ec: Cell, cur: int, d: int, nd: Node)
    requires WellShaped(grid) && ExpandInv(grid, nodes, open, closed, sc, ec, cur, d) && d < 4
    requires CellOf(nd) == Step(CellOf(nodes[cur]), d)
    requires Walkable(grid, CellOf(nd)) && CellOf(nd) !in closed
    requires forall i | i in open :: CellOf(nodes[i]) != CellOf(nd)
    requires nd.parent == cur && nd.g == nodes[cur].g + 1
    ensures ExpandInv(grid, nodes + [nd], open + [|nodes|], closed, sc, ec, cur, d + 1)
  {
    var nodes', open' := nodes + [nd], open + [|nodes|];
    var m := |nodes|;
    assert nodes'[cur] == nodes[cur] && nodes'[m] == nd;
    assert multiset(open') == multiset(open) + multiset{m};
    assert m !in open;
    forall i | i in open' ensures i < |nodes'| && (i in open || i == m) {
      assert i in multiset(open');
    }
    forall i | 0 <= i < m ensures CellOf(nodes[i]) != CellOf(nd) {
      assert i in open || CellOf(nodes[i]) in closed;
    }
    forall i | 1 <= i < |nodes'| ensures ParentOk(grid, nodes', closed, i) {
      if i < m { assert ParentOk(grid, nodes, closed, i); }
    }
    forall n | InOpen(nodes, open, n) ensures InOpen(nodes', open', n) {
      var i :| i in open && i < |nodes| && CellOf(nodes[i]) == n;
      assert i in open' && nodes'[i] == nodes[i];
    }
    forall c | c in closed && c != CellOf(nodes[cur]) ensures Expanded(grid, nodes', open', closed, c) {
      assert Expanded(grid, nodes, open, closed, c);
    }
    assert InOpen(nodes', open', CellOf(nd)) by {
      assert m in open' && nodes'[m] == nd;
    }
  }

  /** A neighbour that is already handled leaves the state as it is. */
  lemma SkipPreserves(grid: seq<seq<bool>>, nodes: seq<Node>, open: seq<nat>, closed: set<Cell>,
                      sc: Cell, ec: Cell, cur: int, d: int)
    requires WellShaped(grid) && ExpandInv(grid, nodes, open, closed, sc, ec, cur, d) && d < 4
    requires Handled(grid, nodes, open, closed, Step(CellOf(nodes[cur]), d))
    ensures ExpandInv(grid, nodes, open, closed, sc, ec, cur, d + 1)
  {
  }

  /** When all four neighbours are handled the main invariant holds again. */
  lemma ExpandDone(grid: seq<seq<bool>>, nodes: seq<Node>, open: seq<nat>, closed: set<Cell>,
                   sc: Cell, ec: Cell, cur: int)
    requires WellShaped(grid) && ExpandInv(grid, nodes, open, closed, sc, ec, cur, 4)
    ensures SearchInv(grid, nodes, open, closed, sc, ec)
  {
    assert Expanded(grid, nodes, open, closed, CellOf(nodes[cur]));
  }

  // ---------------------------------------------------------------------
  // Routes and completeness.

  /** A walk of orthogonal steps through the grid whose cells after the first are walkable. */
  ghost predicate IsRoute(grid: seq<seq<bool>>, route: seq<Cell>)
    requires WellShaped(grid)
  {
    |route| >= 1 &&
    (forall k | 0 <= k < |route| :: InGrid(route[k])) &&
    (forall k | 1 <= k < |route| :: grid[route[k].y][route[k].x]) &&
    (forall k | 0 <= k < |route| - 1 :: Adjacent(route[k], route[k + 1]))
  }

  /**
   * Once the open list is empty, the closed set contains the start cell and
   * every walkable neighbour of its members: so every route from the start
   * stays inside it, and none ends at the goal, which is never closed.
   */
  lemma {:induction false} ExhaustedMeansUnreachable(grid: seq<seq<bool>>, nodes: seq<Node>, closed: set<Cell>,
                                                    sc: Cell, ec: Cell, route: seq<Cell>)
    requires WellShaped(grid) && SearchInv(grid, nodes, [], closed, sc, ec)
    requires IsRoute(grid, route) && route[0] == sc
    ensures route[|route| - 1] != ec
  {
    var k := 0;
    while k < |route| - 1
      invariant 0 <= k < |route| && route[k] in closed
    {
      var d := AdjacentIsStep(route[k], route[k + 1]);
      assert Expanded(grid, nodes, [], closed, route[k]);
      assert Handled(grid, nodes, [], closed, Step(route[k], d));
      k := k + 1;
    }
  }

  /** ExhaustedMeansUnreachable for every route at once. */
  lemma Exhausted(grid: seq<seq<bool>>, nodes: seq<Node>, closed: set<Cell>, sc: Cell, ec: Cell)
    requires WellShaped(grid) && SearchInv(grid, nodes, [], closed, sc, ec)
    ensures forall route | IsRoute(grid, route) && route[0] == sc :: route[|route| - 1] != ec
  {
    forall route | IsRoute(grid, route) && route[0] == sc ensures route[|route| - 1] != ec {
      ExhaustedMeansUnreachable(grid, nodes, closed, sc, ec, route);
    }
  }

  // ---------------------------------------------------------------------
  // Costs: the g of a closed node is the length of a shortest route to it.

  /** The Manhattan distance the source uses as its heuristic. */
  function H(c: Cell, ec: Cell): nat
  {
    Abs(c.x - ec.x) + Abs(c.y - ec.y)
  }

  /** No route from the start cell sc to cell c takes fewer than g steps. */
  ghost predicate NoShorter(grid: seq<seq<bool>>, sc: Cell, c: Cell, g: int)
    requires WellShaped(grid)
  {
    forall route | IsRoute(grid, route) && route[0] == sc && route[|route| - 1] == c :: g <= |route| - 1
  }

  /** Every node after the start is one step further than its parent. */
  ghost predicate GChain(nodes: seq<Node>)
  {
    forall i | 1 <= i < |nodes| :: 0 <= nodes[i].parent < |nodes| && nodes[i].g == nodes[nodes[i].parent].g + 1
  }

  /** Every node after the start has f = g + h. */
  ghost predicate FOk(nodes: seq<Node>, ec: Cell)
  {
    forall i | 1 <= i < |nodes| :: nodes[i].f == nodes[i].g + H(CellOf(nodes[i]), ec)
  }

  /**
   * The costs the search keeps: f is g plus the heuristic (the start node
   * keeps the f of 0 it was created with), g follows the parent chain, each
   * closed cell has a node, and the g of a closed node is optimal.
   */
  ghost predicate CostsOk(grid: seq<seq<bool>>, nodes: seq<Node>, closed: set<Cell>, sc: Cell, ec: Cell)
    requires WellShaped(grid)
  {
    GChain(nodes) && FOk(nodes, ec) &&
    (forall c | c in closed :: exists j | 0 <= j < |nodes| :: CellOf(nodes[j]) == c) &&
    (forall i | 0 <= i < |nodes| && CellOf(nodes[i]) in closed :: NoShorter(grid, sc, CellOf(nodes[i]), nodes[i].g))
  }

  /** An open node is at most one step further than any closed neighbour outside `except`. */
  ghost predicate Relaxed(nodes: seq<Node>, open: seq<nat>, closed: set<Cell>, except: set<Cell>)
    requires Indices(open, nodes)
  {
    forall i, j | i in open && 0 <= j < |nodes| && CellOf(nodes[j]) in closed && CellOf(nodes[j]) !in except &&
                  Adjacent(CellOf(nodes[j]), CellOf(nodes[i])) ::
      nodes[i].g <= nodes[j].g + 1
  }

  /** The open nodes on the first d neighbours of node cur are at most one step further than it. */
  ghost predicate RelaxedFrom(nodes: seq<Node>, open: seq<nat>, cur: int, d: int)
    requires Indices(open, nodes) && 0 <= cur < |nodes| && d <= 4
  {
    forall e, i | 0 <= e < d && i in open && CellOf(nodes[i]) == Step(CellOf(nodes[cur]), e) ::
      nodes[i].g <= nodes[cur].g + 1
  }

  /** Along a route the heuristic falls by at most one per step. */
  lemma {:induction false} HeuristicSlack(route: seq<Cell>, t: nat, ec: Cell)
    requires t < |route| && forall k | 0 <= k < |route| - 1 :: Adjacent(route[k], route[k + 1])
    ensures H(route[t], ec) <= (|route| - 1 - t) + H(route[|route| - 1], ec)
    decreases |route| - t
  {
    if t < |route| - 1 {
      HeuristicSlack(route, t + 1, ec);
      assert Adjacent(route[t], route[t + 1]);
    }
  }

  /** Arena nodes sit on distinct cells. */
  ghost predicate Distinct(nodes: seq<Node>)
  {
    forall i, j | 0 <= i < j < |nodes| :: CellOf(nodes[i]) != CellOf(nodes[j])
  }

  /** Open nodes are on walkable cells off the closed set. */
  ghost predicate OpenWalkable(grid: seq<seq<bool>>, nodes: seq<Node>, open: seq<nat>, closed: set<Cell>)
    requires WellShaped(grid) && Indices(open, nodes)
  {
    forall i | i in open :: Walkable(grid, CellOf(nodes[i])) && CellOf(nodes[i]) !in closed
  }

  /** Every node after the start has a closed parent. */
  ghost predicate ParentsClosed(nodes: seq<Node>, closed: set<Cell>)
  {
    forall i | 1 <= i < |nodes| :: 0 <= nodes[i].parent < |nodes| && CellOf(nodes[nodes[i].parent]) in closed
  }

  /** The parts of the neighbour-loop invariant the cost lemmas use. */
  lemma ExpandFacts(grid: seq<seq<bool>>, nodes: seq<Node>, open: seq<nat>, closed: set<Cell>,
                    sc: Cell, ec: Cell, cur: int, d: int)
    requires WellShaped(grid) && ExpandInv(grid, nodes, open, closed, sc, ec, cur, d)
    ensures Indices(open, nodes) && Distinct(nodes) && OpenWalkable(grid, nodes, open, closed)
    ensures ParentsClosed(nodes, closed) && 0 !in open && CellOf(nodes[cur]) in closed
  {
    forall i | i in open ensures Walkable(grid, CellOf(nodes[i])) {
      assert i != 0 && ParentOk(grid, nodes, closed, i);
    }
    forall i | 1 <= i < |nodes| ensures 0 <= nodes[i].parent < |nodes| && CellOf(nodes[nodes[i].parent]) in closed {
      assert ParentOk(grid, nodes, closed, i);
    }
  }

  /** A cell seen for the first time has no closed neighbour but the current cell, and is none of its earlier neighbours. */
  lemma PushFacts(grid: seq<seq<bool>>, nodes: seq<Node>, open: seq<nat>, closed: set<Cell>,
                  sc: Cell, ec: Cell, cur: int, d: int, n: Cell)
    requires WellShaped(grid) && ExpandInv(grid, nodes, open, closed, sc, ec, cur, d) && d < 4
    requires Walkable(grid, n) && n !in closed
    requires forall i | i in open :: CellOf(nodes[i]) != n
    ensures forall c | c in closed && Adjacent(c, n) :: c == CellOf(nodes[cur])
    ensures forall e | 0 <= e < d :: Step(CellOf(nodes[cur]), e) != n
  {
    forall c | c in closed && Adjacent(c, n) ensures c == CellOf(nodes[cur]) {
      if c != CellOf(nodes[cur]) {
        var e := AdjacentIsStep(c, n);
      }
    }
    forall e | 0 <= e < d ensures Step(CellOf(nodes[cur]), e) != n {
      assert Handled(grid, nodes, open, closed, Step(CellOf(nodes[cur]), e));
    }
  }

  /** A route from a closed cell to a cell that is not closed leaves the closed set onto an open node. */
  lemma ExitPoint(grid: seq<seq<bool>>, nodes: seq<Node>, open: seq<nat>, closed: set<Cell>, route: seq<Cell>)
    returns (t: int, v: nat)
    requires WellShaped(grid) && forall c | c in closed :: Expanded(grid, nodes, open, closed, c)
    requires IsRoute(grid, route) && route[0] in closed && route[|route| - 1] !in closed
    ensures 0 < t < |route| && route[t - 1] in closed && route[t] !in closed
    ensures v in open && v < |nodes| && CellOf(nodes[v]) == route[t]
  {
    t := 0;
    while route[t] in closed
      invariant 0 <= t < |route| && (t > 0 ==> route[t - 1] in closed)
      decreases |route| - t
    {
      t := t + 1;
    }
    var dd := AdjacentIsStep(route[t - 1], route[t]);
    assert Handled(grid, nodes, open, closed, Step(route[t - 1], dd));
    v :| v in open && v < |nodes| && CellOf(nodes[v]) == route[t];
  }

  /** A prefix of a route is a route. */
  lemma PrefixIsRoute(grid: seq<seq<bool>>, route: seq<Cell>, t: int)
    requires WellShaped(grid) && IsRoute(grid, route) && 0 < t <= |route|
    ensures IsRoute(grid, route[..t]) && route[..t][0] == route[0] && route[..t][t - 1] == route[t - 1]
  {
  }

  /** The open node where a route leaves the closed set is no further than the route's steps so far. */
  lemma ExitBound(grid: seq<seq<bool>>, nodes: seq<Node>, open: seq<nat>, closed: set<Cell>,
                  sc: Cell, ec: Cell, route: seq<Cell>, t: int, v: nat)
    requires WellShaped(grid) && Indices(open, nodes)
    requires CostsOk(grid, nodes, closed, sc, ec) && Relaxed(nodes, open, closed, {})
    requires IsRoute(grid, route) && route[0] == sc
    requires 0 < t < |route| && route[t - 1] in closed
    requires v in open && CellOf(nodes[v]) == route[t]
    ensures nodes[v].g <= t
  {
    var p := route[t - 1];
    var j :| 0 <= j < |nodes| && CellOf(nodes[j]) == p;
    PrefixIsRoute(grid, route, t);
    assert nodes[j].g <= t - 1;
    assert nodes[v].g <= nodes[j].g + 1;
  }

  /**
   * The node at the head of the sorted open list has an optimal g: a route
   * to its cell leaves the closed set at an open node v no further than the
   * steps taken to reach it, the head's f is at most v's, and the heuristic
   * falls by at most one per remaining step.
   */
  lemma PopOptimal(nodes: seq<Node>, open: seq<nat>, ec: Cell, sorted: seq<nat>, route: seq<Cell>, t: int, v: nat)
    requires Indices(open, nodes) && FOk(nodes, ec)
    requires |sorted| > 0 && multiset(sorted) == multiset(open) && Indices(sorted, nodes) && SortedByF(sorted, nodes)
    requires |route| > 0 && forall k | 0 <= k < |route| - 1 :: Adjacent(route[k], route[k + 1])
    requires route[|route| - 1] == CellOf(nodes[sorted[0]])
    requires 0 < t < |route| && v in open && CellOf(nodes[v]) == route[t] && nodes[v].g <= t
    requires 0 < v && 0 < sorted[0]
    ensures nodes[sorted[0]].g <= |route| - 1
  {
    var u := sorted[0];
    HeuristicSlack(route, t, ec);
    assert v in multiset(sorted);
    var idx :| 0 <= idx < |sorted| && sorted[idx] == v;
    assert nodes[u].f <= nodes[v].f;
  }

  /** The head of the sorted open list has an optimal g. */
  lemma PopNoShorter(grid: seq<seq<bool>>, nodes: seq<Node>, open: seq<nat>, closed: set<Cell>,
                     sc: Cell, ec: Cell, sorted: seq<nat>)
    requires WellShaped(grid) && SearchInv(grid, nodes, open, closed, sc, ec)
    requires CostsOk(grid, nodes, closed, sc, ec) && Relaxed(nodes, open, closed, {})
    requires |sorted| > 0 && multiset(sorted) == multiset(open) && Indices(sorted, nodes) && SortedByF(sorted, nodes)
    ensures NoShorter(grid, sc, CellOf(nodes[sorted[0]]), nodes[sorted[0]].g)
    ensures Distinct(nodes)
  {
    var u := sorted[0];
    assert u in multiset(open);
    forall route | IsRoute(grid, route) && route[0] == sc && route[|route| - 1] == CellOf(nodes[u])
      ensures nodes[u].g <= |route| - 1
    {
      if u != 0 {
        var t, v := ExitPoint(grid, nodes, open, closed, route);
        ExitBound(grid, nodes, open, closed, sc, ec, route, t, v);
        PopOptimal(nodes, open, ec, sorted, route, t, v);
      }
    }
  }

  /** Popping the head keeps the costs, and the relaxation waits for its neighbours. */
  lemma OptPop(grid: seq<seq<bool>>, nodes: seq<Node>, open: seq<nat>, closed: set<Cell>,
               sc: Cell, ec: Cell, sorted: seq<nat>)
    requires WellShaped(grid) && Indices(open, nodes) && Distinct(nodes)
    requires CostsOk(grid, nodes, closed, sc, ec) && Relaxed(nodes, open, closed, {})
    requires |sorted| > 0 && multiset(sorted) == multiset(open) && Indices(sorted, nodes)
    requires NoShorter(grid, sc, CellOf(nodes[sorted[0]]), nodes[sorted[0]].g)
    ensures CostsOk(grid, nodes, closed + {CellOf(nodes[sorted[0]])}, sc, ec)
    ensures Indices(sorted[1..], nodes) &&
            Relaxed(nodes, sorted[1..], closed + {CellOf(nodes[sorted[0]])}, {CellOf(nodes[sorted[0]])})
  {
    var u, rest := sorted[0], sorted[1..];
    var cc := CellOf(nodes[u]);
    forall i | 0 <= i < |nodes| && CellOf(nodes[i]) in closed + {cc}
      ensures NoShorter(grid, sc, CellOf(nodes[i]), nodes[i].g)
    {
    }
    forall c | c in closed + {cc} ensures exists j | 0 <= j < |nodes| :: CellOf(nodes[j]) == c {
      if c == cc {
        assert CellOf(nodes[u]) == c;
      }
    }
    assert sorted == [u] + rest;
    forall i | i in rest ensures i in open {
      assert i in multiset(sorted);
    }
  }

  /** A neighbour that is off the grid, blocked, closed, or open with a g no larger needs nothing. */
  lemma OptSkip(grid: seq<seq<bool>>, nodes: seq<Node>, open: seq<nat>, closed: set<Cell>,
                cur: int, d: int, k: int)
    requires WellShaped(grid) && Indices(open, nodes) && 0 <= cur < |nodes| && 0 <= d < 4
    requires Distinct(nodes) && OpenWalkable(grid, nodes, open, closed)
    requires RelaxedFrom(nodes, open, cur, d)
    requires var n := Step(CellOf(nodes[cur]), d);
             !InGrid(n) || !grid[n.y][n.x] || n in closed ||
             (k in open && CellOf(nodes[k]) == n && nodes[k].g <= nodes[cur].g + 1)
    ensures RelaxedFrom(nodes, open, cur, d + 1)
  {
    var n := Step(CellOf(nodes[cur]), d);
    forall i | i in open && CellOf(nodes[i]) == n ensures nodes[i].g <= nodes[cur].g + 1 {
    }
  }

  /** An open neighbour whose g improves to the current node's plus one keeps the costs. */
  lemma UpdateCosts(grid: seq<seq<bool>>, nodes: seq<Node>, closed: set<Cell>,
                    sc: Cell, ec: Cell, cur: int, k: nat, gScore: int, fScore: int)
    requires WellShaped(grid) && 0 <= cur < |nodes| && 0 < k < |nodes|
    requires ParentsClosed(nodes, closed) && CellOf(nodes[k]) !in closed && CellOf(nodes[cur]) in closed
    requires CostsOk(grid, nodes, closed, sc, ec)
    requires gScore == nodes[cur].g + 1 && fScore == gScore + H(CellOf(nodes[k]), ec)
    ensures CostsOk(grid, nodes[k := nodes[k].(g := gScore, f := fScore, parent := cur)], closed, sc, ec)
  {
    var nodes' := nodes[k := nodes[k].(g := gScore, f := fScore, parent := cur)];
    forall c | c in closed ensures exists j | 0 <= j < |nodes'| :: CellOf(nodes'[j]) == c {
      var j :| 0 <= j < |nodes| && CellOf(nodes[j]) == c;
      assert CellOf(nodes'[j]) == c;
    }
    forall i | 0 <= i < |nodes'| && CellOf(nodes'[i]) in closed
      ensures NoShorter(grid, sc, CellOf(nodes'[i]), nodes'[i].g)
    {
      assert i != k;
    }
  }

  /** An open neighbour whose g improves to the current node's plus one stays relaxed. */
  lemma UpdateRelaxed(nodes: seq<Node>, open: seq<nat>, closed: set<Cell>,
                      cur: int, d: int, k: nat, gScore: int, fScore: int)
    requires Indices(open, nodes) && 0 <= cur < |nodes| && 0 <= d < 4 && Distinct(nodes)
    requires Relaxed(nodes, open, closed, {CellOf(nodes[cur])}) && RelaxedFrom(nodes, open, cur, d)
    requires k in open && k != cur && CellOf(nodes[k]) == Step(CellOf(nodes[cur]), d) && CellOf(nodes[k]) !in closed
    requires gScore == nodes[cur].g + 1 && gScore < nodes[k].g
    ensures var nodes' := nodes[k := nodes[k].(g := gScore, f := fScore, parent := cur)];
            Relaxed(nodes', open, closed, {CellOf(nodes[cur])}) && RelaxedFrom(nodes', open, cur, d + 1)
  {
    var nodes' := nodes[k := nodes[k].(g := gScore, f := fScore, parent := cur)];
    forall i, j | i in open && 0 <= j < |nodes'| && CellOf(nodes'[j]) in closed && CellOf(nodes'[j]) !in {CellOf(nodes[cur])} &&
                  Adjacent(CellOf(nodes'[j]), CellOf(nodes'[i]))
      ensures nodes'[i].g <= nodes'[j].g + 1
    {
      assert j != k && nodes'[j] == nodes[j];
      if i != k {
        assert nodes'[i] == nodes[i];
      }
    }
    forall e, i | 0 <= e < d + 1 && i in open && CellOf(nodes'[i]) == Step(CellOf(nodes'[cur]), e)
      ensures nodes'[i].g <= nodes'[cur].g + 1
    {
      if i != k {
        assert nodes'[i] == nodes[i] && CellOf(nodes[i]) == Step(CellOf(nodes[cur]), e);
      }
    }
  }

  /** A neighbour seen for the first time as a new node keeps the costs. */
  lemma PushCosts(grid: seq<seq<bool>>, nodes: seq<Node>, closed: set<Cell>,
                  sc: Cell, ec: Cell, cur: int, nd: Node)
    requires WellShaped(grid) && 0 <= cur < |nodes|
    requires CostsOk(grid, nodes, closed, sc, ec) && CellOf(nd) !in closed
    requires nd.parent == cur && nd.g == nodes[cur].g + 1 && nd.f == nd.g + H(CellOf(nd), ec)
    ensures CostsOk(grid, nodes + [nd], closed, sc, ec)
  {
    var nodes' := nodes + [nd];
    forall c | c in closed ensures exists j | 0 <= j < |nodes'| :: CellOf(nodes'[j]) == c {
      var j :| 0 <= j < |nodes| && CellOf(nodes[j]) == c;
      assert CellOf(nodes'[j]) == c;
    }
    forall i | 0 <= i < |nodes'| && CellOf(nodes'[i]) in closed
      ensures NoShorter(grid, sc, CellOf(nodes'[i]), nodes'[i].g)
    {
      assert i < |nodes| && nodes'[i] == nodes[i];
    }
  }

  /** A neighbour seen for the first time as a new open node stays relaxed. */
  lemma PushRelaxed(nodes: seq<Node>, open: seq<nat>, closed: set<Cell>, cur: int, d: int, nd: Node)
    requires Indices(open, nodes) && 0 <= cur < |nodes| && 0 <= d < 4
    requires Relaxed(nodes, open, closed, {CellOf(nodes[cur])}) && RelaxedFrom(nodes, open, cur, d)
    requires CellOf(nd) == Step(CellOf(nodes[cur]), d) && CellOf(nd) !in closed
    requires forall i | i in open :: CellOf(nodes[i]) != CellOf(nd)
    requires forall c | c in closed && Adjacent(c, CellOf(nd)) :: c == CellOf(nodes[cur])
    requires forall e | 0 <= e < d :: Step(CellOf(nodes[cur]), e) != CellOf(nd)
    requires nd.g == nodes[cur].g + 1
    ensures var nodes', open' := nodes + [nd], open + [|nodes|];
            Indices(open', nodes') &&
            Relaxed(nodes', open', closed, {CellOf(nodes[cur])}) && RelaxedFrom(nodes', open', cur, d + 1)
  {
    var nodes', open' := nodes + [nd], open + [|nodes|];
    var m := |nodes|;
    assert multiset(open') == multiset(open) + multiset{m};
    forall i | i in open' ensures i < |nodes'| && (i in open || i == m) {
      assert i in multiset(open');
    }
    forall i, j | i in open' && 0 <= j < |nodes'| && CellOf(nodes'[j]) in closed && CellOf(nodes'[j]) !in {CellOf(nodes[cur])} &&
                  Adjacent(CellOf(nodes'[j]), CellOf(nodes'[i]))
      ensures nodes'[i].g <= nodes'[j].g + 1
    {
      assert j < m && nodes'[j] == nodes[j];
      if i != m {
        assert nodes'[i] == nodes[i];
      }
    }
    forall e, i | 0 <= e < d + 1 && i in open' && CellOf(nodes'[i]) == Step(CellOf(nodes'[cur]), e)
      ensures nodes'[i].g <= nodes'[cur].g + 1
    {
      if i != m {
        assert nodes'[i] == nodes[i];
      }
    }
  }

  /** With all four neighbours relaxed, every open node is relaxed against every closed one. */
  lemma OptDone(nodes: seq<Node>, open: seq<nat>, closed: set<Cell>, cur: int)
    requires Indices(open, nodes) && 0 <= cur < |nodes| && Distinct(nodes)
    requires Relaxed(nodes, open, closed, {CellOf(nodes[cur])}) && RelaxedFrom(nodes, open, cur, 4)
    ensures Relaxed(nodes, open, closed, {})
  {
    var cc := CellOf(nodes[cur]);
    forall i, j | i in open && 0 <= j < |nodes| && CellOf(nodes[j]) in closed && Adjacent(CellOf(nodes[j]), CellOf(nodes[i]))
      ensures nodes[i].g <= nodes[j].g + 1
    {
      if CellOf(nodes[j]) == cc {
        assert j == cur;
        var e := AdjacentIsStep(cc, CellOf(nodes[i]));
      }
    }
  }

  // ---------------------------------------------------------------------
  // The search.

  /** The grid cells of a sequence of waypoints. */
  function PathCells(path: seq<Vec2>): (cells: seq<Cell>)
    ensures |cells| == |path| && forall k | 0 <= k < |path| :: cells[k] == GetGridPos(path[k])
  {
    seq(|path|, k requires 0 <= k < |path| => GetGridPos(path[k]))
  }

  function Reversed<T>(s: seq<T>): (r: seq<T>)
    ensures |r| == |s| && forall k | 0 <= k < |s| :: r[k] == s[|s| - 1 - k]
  {
    if s == [] then [] else [s[|s| - 1]] + Reversed(s[..|s| - 1])
  }

  /**
   * The cells visited while following parent links from the goal: each one a
   * step from the one before, all in the grid, all but the last walkable.
   */
  ghost predicate BackChain(grid: seq<seq<bool>>, cells: seq<Cell>)
    requires WellShaped(grid)
  {
    (forall k | 0 <= k < |cells| :: InGrid(cells[k])) &&
    (forall k | 0 <= k < |cells| - 1 :: grid[cells[k].y][cells[k].x]) &&
    (forall k | 0 <= k < |cells| - 1 :: Adjacent(cells[k + 1], cells[k]))
  }

  /** The waypoints of a back chain, reversed, form a route from its last cell to its first. */
  lemma ReversedChainIsRoute(grid: seq<seq<bool>>, cells: seq<Cell>, rev: seq<Vec2>)
    requires WellShaped(grid) && BackChain(grid, cells) && |cells| > 0
    requires |rev| == |cells| && forall k | 0 <= k < |rev| :: rev[k] == Waypoint(cells[k])
    ensures var path := Reversed(rev);
            IsRoute(grid, PathCells(path)) &&
            GetGridPos(path[0]) == cells[|cells| - 1] && GetGridPos(path[|path| - 1]) == cells[0] &&
            forall k | 0 <= k < |path| :: path[k] == Waypoint(GetGridPos(path[k]))
  {
    var path := Reversed(rev);
    var n := |path|;
    forall k | 0 <= k < n ensures GetGridPos(path[k]) == cells[n - 1 - k] {
      WaypointCell(cells[n - 1 - k]);
    }
    var pc := PathCells(path);
    forall k | 0 <= k < n - 1 ensures Adjacent(pc[k], pc[k + 1]) {
      assert pc[k] == cells[n - 1 - k] && pc[k + 1] == cells[n - 1 - (k + 1)];
    }
  }

  /** Follow parent links from the goal node back to the start node, then reverse. */
  method Reconstruct(grid: seq<seq<bool>>, nodes: seq<Node>, closed: set<Cell>, sc: Cell, goal: int)
    returns (path: seq<Vec2>)
    requires WellShaped(grid) && ArenaOk(grid, nodes, closed, sc) && GChain(nodes) && 0 <= goal < |nodes|
    ensures path != [] && IsRoute(grid, PathCells(path))
    ensures GetGridPos(path[0]) == sc && GetGridPos(path[|path| - 1]) == CellOf(nodes[goal])
    ensures forall k | 0 <= k < |path| :: path[k] == Waypoint(GetGridPos(path[k]))
    ensures goal == 0 ==> |path| == 1
    ensures |path| == nodes[goal].g + 1
  {
    var rev: seq<Vec2> := [];
    ghost var cells: seq<Cell> := [];
    ghost var last := goal;
    var curr := goal;
    while curr != -1
      invariant -1 <= curr < |nodes| && 0 <= last < |nodes|
      invariant |rev| == |cells| && forall k | 0 <= k < |rev| :: rev[k] == Waypoint(cells[k])
      invariant |cells| == 0 ==> curr == goal && last == goal
      invariant |cells| > 0 ==> cells[0] == CellOf(nodes[goal])
      invariant |cells| > 0 ==> cells[|cells| - 1] == CellOf(nodes[last]) && curr == nodes[last].parent
      invariant BackChain(grid, cells)
      invariant |cells| > 0 && last != 0 ==> Walkable(grid, cells[|cells| - 1])
      invariant |cells| > 0 && curr != -1 ==> Adjacent(CellOf(nodes[curr]), cells[|cells| - 1])
      invariant curr == -1 ==> |cells| > 0 && last == 0
      invariant goal == 0 ==> (|cells| == 0 && curr == 0) || (|cells| == 1 && curr == -1)
      invariant |cells| + (if curr == -1 then 0 else nodes[curr].g + 1) == nodes[goal].g + 1
      decreases if curr == -1 then 0 else nodes[curr].g + 1
    {
      if curr != 0 {
        assert ParentOk(grid, nodes, closed, curr);
      }
      rev := rev + [Waypoint(CellOf(nodes[curr]))];
      cells := cells + [CellOf(nodes[curr])];
      last := curr;
      curr := nodes[curr].parent;
    }
    ReversedChainIsRoute(grid, cells, rev);
    path := Reversed(rev);
  }

  /** A neighbour on the open list whose g improves: the node on its cell gets the new costs and `cur` as parent. */
  method Improve(grid: seq<seq<bool>>, nodes0: seq<Node>, open: seq<nat>, closed: set<Cell>,
                 sc: Cell, ec: Cell, cur: int, d: int, k: nat, gScore: int, fScore: int)
    returns (nodes: seq<Node>)
    requires WellShaped(grid) && ExpandInv(grid, nodes0, open, closed, sc, ec, cur, d) && d < 4
    requires CostsOk(grid, nodes0, closed, sc, ec)
    requires Relaxed(nodes0, open, closed, {CellOf(nodes0[cur])}) && RelaxedFrom(nodes0, open, cur, d)
    requires k in open && CellOf(nodes0[k]) == Step(CellOf(nodes0[cur]), d)
    requires gScore == nodes0[cur].g + 1 && gScore < nodes0[k].g && fScore == gScore + H(CellOf(nodes0[k]), ec)
    ensures nodes == nodes0[k := nodes0[k].(g := gScore, f := fScore, parent := cur)]
    ensures |nodes| == |nodes0| && nodes[cur] == nodes0[cur]
    ensures ExpandInv(grid, nodes, open, closed, sc, ec, cur, d + 1)
    ensures CostsOk(grid, nodes, closed, sc, ec)
    ensures Relaxed(nodes, open, closed, {CellOf(nodes0[cur])}) && RelaxedFrom(nodes, open, cur, d + 1)
  {
    ExpandFacts(grid, nodes0, open, closed, sc, ec, cur, d);
    UpdatePreserves(grid, nodes0, open, closed, sc, ec, cur, d, k, gScore, fScore);
    UpdateCosts(grid, nodes0, closed, sc, ec, cur, k, gScore, fScore);
    UpdateRelaxed(nodes0, open, closed, cur, d, k, gScore, fScore);
    nodes := nodes0[k := nodes0[k].(g := gScore, f := fScore, parent := cur)];
  }

  /** A neighbour seen for the first time: a new node with `cur` as parent, appended to the arena and the open list. */
  method Discover(grid: seq<seq<bool>>, nodes0: seq<Node>, open0: seq<nat>, closed: set<Cell>,
                  sc: Cell, ec: Cell, cur: int, d: int, nd: Node)
    returns (nodes: seq<Node>, open: seq<nat>)
    requires WellShaped(grid) && ExpandInv(grid, nodes0, open0, closed, sc, ec, cur, d) && d < 4
    requires CostsOk(grid, nodes0, closed, sc, ec)
    requires Relaxed(nodes0, open0, closed, {CellOf(nodes0[cur])}) && RelaxedFrom(nodes0, open0, cur, d)
    requires CellOf(nd) == Step(CellOf(nodes0[cur]), d) && Walkable(grid, CellOf(nd)) && CellOf(nd) !in closed
    requires forall i | i in open0 :: CellOf(nodes0[i]) != CellOf(nd)
    requires nd.parent == cur && nd.g == nodes0[cur].g + 1 && nd.f == nd.g + H(CellOf(nd), ec)
    ensures nodes == nodes0 + [nd] && open == open0 + [|nodes0|]
    ensures |nodes| > |nodes0| && nodes[cur] == nodes0[cur]
    ensures ExpandInv(grid, nodes, open, closed, sc, ec, cur, d + 1)
    ensures CostsOk(grid, nodes, closed, sc, ec)
    ensures Relaxed(nodes, open, closed, {CellOf(nodes0[cur])}) && RelaxedFrom(nodes, open, cur, d + 1)
  {
    PushPreserves(grid, nodes0, open0, closed, sc, ec, cur, d, nd);
    PushFacts(grid, nodes0, open0, closed, sc, ec, cur, d, CellOf(nd));
    PushCosts(grid, nodes0, closed, sc, ec, cur, nd);
    PushRelaxed(nodes0, open0, closed, cur, d, nd);
    var m: nat := |nodes0|;
    open := open0 + [m];
    nodes := nodes0 + [nd];
  }

  /**
   * One pass of the neighbour loop of findPath for the node `cur` just
   * closed: an in-grid, walkable, unclosed neighbour either improves the g of
   * the open node on its cell or becomes a new open node.
   */
  method ExpandOne(grid: seq<seq<bool>>, nodes0: seq<Node>, open0: seq<nat>, closed: set<Cell>,
                   sc: Cell, ec: Cell, cur: int, d: int)
    returns (nodes: seq<Node>, open: seq<nat>)
    requires WellShaped(grid) && ExpandInv(grid, nodes0, open0, closed, sc, ec, cur, d) && d < 4
    requires CostsOk(grid, nodes0, closed, sc, ec)
    requires Relaxed(nodes0, open0, closed, {CellOf(nodes0[cur])}) && RelaxedFrom(nodes0, open0, cur, d)
    ensures ExpandInv(grid, nodes, open, closed, sc, ec, cur, d + 1)
    ensures CostsOk(grid, nodes, closed, sc, ec)
    ensures Relaxed(nodes, open, closed, {CellOf(nodes0[cur])}) && RelaxedFrom(nodes, open, cur, d + 1)
    ensures |nodes| >= |nodes0| && CellOf(nodes[cur]) == CellOf(nodes0[cur])
  {
    nodes, open := nodes0, open0;
    var n := Step(CellOf(nodes[cur]), d);
    if InGrid(n) && grid[n.y][n.x] && n !in closed {
      var gScore := nodes[cur].g + 1;
      var hScore := Abs(n.x - ec.x) + Abs(n.y - ec.y);
      var fScore := gScore + hScore;
      var k := FindOpen(open, nodes, n);
      if k != -1 {
        if gScore < nodes[k].g {
          nodes := Improve(grid, nodes, open, closed, sc, ec, cur, d, k, gScore, fScore);
        } else {
          assert InOpen(nodes, open, n);
          SkipPreserves(grid, nodes, open, closed, sc, ec, cur, d);
          ExpandFacts(grid, nodes, open, closed, sc, ec, cur, d);
          OptSkip(grid, nodes, open, closed, cur, d, k);
        }
      } else {
        var nd := Node(n.x, n.y, fScore, gScore, hScore, cur);
        assert CellOf(nd) == n && hScore == H(n, ec);
        nodes, open := Discover(grid, nodes, open, closed, sc, ec, cur, d, nd);
      }
    } else {
      SkipPreserves(grid, nodes, open, closed, sc, ec, cur, d);
      ExpandFacts(grid, nodes, open, closed, sc, ec, cur, d);
      OptSkip(grid, nodes, open, closed, cur, d, -1);
    }
  }

  /** The neighbour loop of findPath for the node `cur` just closed, over the four neighbours in order. */
  method ExpandNeighbors(grid: seq<seq<bool>>, nodes0: seq<Node>, open0: seq<nat>, closed: set<Cell>,
                         sc: Cell, ec: Cell, cur: int)
    returns (nodes: seq<Node>, open: seq<nat>)
    requires WellShaped(grid) && ExpandInv(grid, nodes0, open0, closed, sc, ec, cur, 0)
    requires CostsOk(grid, nodes0, closed, sc, ec) && Relaxed(nodes0, open0, closed, {CellOf(nodes0[cur])})
    ensures ExpandInv(grid, nodes, open, closed, sc, ec, cur, 4)
    ensures CostsOk(grid, nodes, closed, sc, ec) && Relaxed(nodes, open, closed, {})
    ensures |nodes| >= |nodes0| && CellOf(nodes[cur]) == CellOf(nodes0[cur])
  {
    nodes, open := nodes0, open0;
    var d := 0;
    while d < 4
      invariant ExpandInv(grid, nodes, open, closed, sc, ec, cur, d)
      invariant |nodes| >= |nodes0| && CellOf(nodes[cur]) == CellOf(nodes0[cur])
      invariant CostsOk(grid, nodes, closed, sc, ec)
      invariant Relaxed(nodes, open, closed, {CellOf(nodes0[cur])}) && RelaxedFrom(nodes, open, cur, d)
    {
      nodes, open := ExpandOne(grid, nodes, open, closed, sc, ec, cur, d);
      d := d + 1;
    }
    ExpandFacts(grid, nodes, open, closed, sc, ec, cur, 4);
    OptDone(nodes, open, closed, cur);
  }

  /** One turn of the main loop of findPath when the head of the open list is not the goal: close it and expand it. */
  method CloseAndExpand(grid: seq<seq<bool>>, nodes0: seq<Node>, open0: seq<nat>, closed0: set<Cell>,
                        sc: Cell, ec: Cell, sorted: seq<nat>)
    returns (nodes: seq<Node>, open: seq<nat>, closed: set<Cell>)
    requires WellShaped(grid) && SearchInv(grid, nodes0, open0, closed0, sc, ec)
    requires CostsOk(grid, nodes0, closed0, sc, ec) && Relaxed(nodes0, open0, closed0, {})
    requires |sorted| > 0 && multiset(sorted) == multiset(open0) && Indices(sorted, nodes0) && SortedByF(sorted, nodes0)
    requires CellOf(nodes0[sorted[0]]) != ec
    ensures SearchInv(grid, nodes, open, closed, sc, ec)
    ensures CostsOk(grid, nodes, closed, sc, ec) && Relaxed(nodes, open, closed, {})
    ensures closed == closed0 + {CellOf(nodes0[sorted[0]])} && CellOf(nodes0[sorted[0]]) !in closed0
  {
    var cur := sorted[0];
    var cc := CellOf(nodes0[cur]);
    assert cur in multiset(open0);
    PopNoShorter(grid, nodes0, open0, closed0, sc, ec, sorted);
    PopPreserves(grid, nodes0, open0, closed0, sc, ec, sorted);
    OptPop(grid, nodes0, open0, closed0, sc, ec, sorted);
    closed := closed0 + {cc};
    nodes, open := ExpandNeighbors(grid, nodes0, sorted[1..], closed, sc, ec, cur);
    ExpandDone(grid, nodes, open, closed, sc, ec, cur);
  }

  /** The turn of the main loop of findPath that pops the goal: the path rebuilt from its node is a shortest route. */
  method Found(grid: seq<seq<bool>>, nodes: seq<Node>, open: seq<nat>, closed: set<Cell>,
               sc: Cell, ec: Cell, sorted: seq<nat>)
    returns (path: seq<Vec2>)
    requires WellShaped(grid) && SearchInv(grid, nodes, open, closed, sc, ec)
    requires CostsOk(grid, nodes, closed, sc, ec) && Relaxed(nodes, open, closed, {})
    requires |sorted| > 0 && multiset(sorted) == multiset(open) && Indices(sorted, nodes) && SortedByF(sorted, nodes)
    requires CellOf(nodes[sorted[0]]) == ec && (sc == ec ==> open == [0])
    ensures path != [] && IsRoute(grid, PathCells(path))
    ensures GetGridPos(path[0]) == sc && GetGridPos(path[|path| - 1]) == ec
    ensures forall k | 0 <= k < |path| :: path[k] == Waypoint(GetGridPos(path[k]))
    ensures sc == ec ==> |path| == 1
    ensures forall route | IsRoute(grid, route) && route[0] == sc && route[|route| - 1] == ec :: |path| <= |route|
  {
    if sc == ec {
      assert sorted[0] in multiset(open);
    }
    PopNoShorter(grid, nodes, open, closed, sc, ec, sorted);
    path := Reconstruct(grid, nodes, closed, sc, sorted[0]);
    Shortest(grid, sc, ec, nodes[sorted[0]].g, path);
  }

  /** A route to the goal one waypoint longer than its node's optimal g is a shortest one. */
  lemma Shortest(grid: seq<seq<bool>>, sc: Cell, ec: Cell, g: int, path: seq<Vec2>)
    requires WellShaped(grid) && NoShorter(grid, sc, ec, g) && |path| == g + 1
    ensures forall route | IsRoute(grid, route) && route[0] == sc && route[|route| - 1] == ec :: |path| <= |route|
  {
  }

  /** Everything FindPath promises about its result, as one predicate for the callers' contracts. */
  ghost predicate PathContract(startPos: Vec2, endPos: Vec2, grid: seq<seq<bool>>, path: seq<Vec2>)
    requires WellShaped(grid)
  {
    var sc, ec := GetGridPos(startPos), GetGridPos(endPos);
    (!InGrid(sc) || !InGrid(ec) || !grid[ec.y][ec.x] ==> path == []) &&
    (path != [] ==> IsRoute(grid, PathCells(path)) &&
                    GetGridPos(path[0]) == sc && GetGridPos(path[|path| - 1]) == ec) &&
    (forall k | 0 <= k < |path| :: path[k] == Waypoint(GetGridPos(path[k]))) &&
    (InGrid(sc) && InGrid(ec) && grid[ec.y][ec.x] && sc == ec ==> |path| == 1) &&
    (path == [] && InGrid(sc) && InGrid(ec) && grid[ec.y][ec.x] ==>
       forall route | IsRoute(grid, route) && route[0] == sc :: route[|route| - 1] != ec) &&
    (path != [] ==> forall route | IsRoute(grid, route) && route[0] == sc && route[|route| - 1] == ec :: |path| <= |route|)
  }

  /** The search loop of findPath from an in-grid start cell to an in-grid, walkable goal cell. */
  method Search(grid: seq<seq<bool>>, sc: Cell, ec: Cell) returns (path: seq<Vec2>)
    requires WellShaped(grid) && InGrid(sc) && Walkable(grid, ec)
    ensures path != [] ==> IsRoute(grid, PathCells(path)) &&
                           GetGridPos(path[0]) == sc && GetGridPos(path[|path| - 1]) == ec
    ensures forall k | 0 <= k < |path| :: path[k] == Waypoint(GetGridPos(path[k]))
    ensures sc == ec ==> |path| == 1
    ensures path == [] ==> forall route | IsRoute(grid, route) && route[0] == sc :: route[|route| - 1] != ec
    ensures path != [] ==> forall route | IsRoute(grid, route) && route[0] == sc && route[|route| - 1] == ec :: |path| <= |route|
  {
    var nodes := [Node(sc.x, sc.y, 0, 0, 0, -1)];
    var open: seq<nat> := [0];
    var closed: set<Cell> := {};
    while |open| > 0
      invariant SearchInv(grid, nodes, open, closed, sc, ec)
      invariant sc == ec ==> open == [0] && closed == {}
      invariant CostsOk(grid, nodes, closed, sc, ec) && Relaxed(nodes, open, closed, {})
      decreases AllCells() - closed
    {
      var sorted := SortByF(open, nodes);
      SortSorted(open, nodes);
      var cur := sorted[0];
      var cc := CellOf(nodes[cur]);
      if cc == ec {
        path := Found(grid, nodes, open, closed, sc, ec, sorted);
        return;
      }
      assert cur in multiset(open);
      InAllCells(cc);
      nodes, open, closed := CloseAndExpand(grid, nodes, open, closed, sc, ec, sorted);
    }
    Exhausted(grid, nodes, closed, sc, ec);
    return [];
  }

  /**
   * findPath: the waypoints of a shortest route from the start cell to the
   * goal cell, or [] when either cell is off the grid, the goal cell is
   * blocked, or the open list runs empty, which happens exactly when no route
   * exists.
   */
  method FindPath(startPos: Vec2, endPos: Vec2, grid: seq<seq<bool>>) returns (path: seq<Vec2>)
    requires WellShaped(grid)
    ensures var sc, ec := GetGridPos(startPos), GetGridPos(endPos);
            !InGrid(sc) || !InGrid(ec) || !grid[ec.y][ec.x] ==> path == []
    ensures path != [] ==> IsRoute(grid, PathCells(path)) &&
                           GetGridPos(path[0]) == GetGridPos(startPos) &&
                           GetGridPos(path[|path| - 1]) == GetGridPos(endPos)
    ensures forall k | 0 <= k < |path| :: path[k] == Waypoint(GetGridPos(path[k]))
    ensures var sc, ec := GetGridPos(startPos), GetGridPos(endPos);
            InGrid(sc) && InGrid(ec) && grid[ec.y][ec.x] && sc == ec ==> |path| == 1
    ensures var sc, ec := GetGridPos(startPos), GetGridPos(endPos);
            path == [] && InGrid(sc) && InGrid(ec) && grid[ec.y][ec.x] ==>
              forall route | IsRoute(grid, route) && route[0] == sc :: route[|route| - 1] != ec
    ensures path != [] ==> forall route | IsRoute(grid, route) && route[0] == GetGridPos(startPos) &&
                                          route[|route| - 1] == GetGridPos(endPos) :: |path| <= |route|
    ensures PathContract(startPos, endPos, grid, path)
  {
    var sc := GetGridPos(startPos);
    var ec := GetGridPos(endPos);
    if !InGrid(sc) || !InGrid(ec) { return []; }
    if !grid[ec.y][ec.x] { return []; }
    path := Search(grid, sc, ec);
  }
}
