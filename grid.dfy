/**
 * The walkability grid: 40-pixel cells over the 800 x 600 board
 * (components/GameCanvas.tsx: GRID_* constants, getGridPos and the grid
 * build at the end of setupLevel).
 */
module Grid {
  import opened Types
  import opened Collision

  const GRID_CELL_SIZE: int := 40
  /** ceil(CANVAS_WIDTH / GRID_CELL_SIZE) */
  const GRID_COLS: int := 20
  /** ceil(CANVAS_HEIGHT / GRID_CELL_SIZE) */
  const GRID_ROWS: int := 15

  datatype Cell = Cell(x: int, y: int)

  /** The cell holding an entity whose 32-pixel box has its top-left corner at pos. */
  function GetGridPos(pos: Vec2): Cell
  {
    Cell(((pos.x + 16.0) / (GRID_CELL_SIZE as real)).Floor,
         ((pos.y + 16.0) / (GRID_CELL_SIZE as real)).Floor)
  }

  predicate InGrid(c: Cell)
  {
    0 <= c.x < GRID_COLS && 0 <= c.y < GRID_ROWS
  }

  /** A grid of GRID_ROWS rows of GRID_COLS cells each, indexed grid[y][x]. */
  ghost predicate WellShaped(grid: seq<seq<bool>>)
  {
    |grid| == GRID_ROWS && forall y | 0 <= y < GRID_ROWS :: |grid[y]| == GRID_COLS
  }

  predicate Walkable(grid: seq<seq<bool>>, c: Cell)
    requires WellShaped(grid)
  {
    InGrid(c) && grid[c.y][c.x]
  }

  function CellRect(x: int, y: int): Rect
  {
    Rect((x * GRID_CELL_SIZE) as real, (y * GRID_CELL_SIZE) as real,
         GRID_CELL_SIZE as real, GRID_CELL_SIZE as real)
  }

  /** The waypoint findPath emits for a cell: its centre, shifted to a 32-pixel box origin. */
  function Waypoint(c: Cell): (p: Vec2)
    ensures p == Vec2((c.x * 40 + 4) as real, (c.y * 40 + 4) as real)
  {
    Vec2((c.x * GRID_CELL_SIZE + GRID_CELL_SIZE / 2 - 16) as real,
         (c.y * GRID_CELL_SIZE + GRID_CELL_SIZE / 2 - 16) as real)
  }

  lemma FloorOfHalfStep(k: int)
    ensures (((k * 40 + 20) as real) / 40.0).Floor == k
  {
    assert ((k * 40 + 20) as real) / 40.0 == (k as real) + 0.5;
  }

  /** A waypoint maps back to the cell it was made from. */
  lemma WaypointCell(c: Cell)
    ensures GetGridPos(Waypoint(c)) == c
  {
    FloorOfHalfStep(c.x);
    FloorOfHalfStep(c.y);
    assert Waypoint(c).x + 16.0 == (c.x * 40 + 20) as real;
    assert Waypoint(c).y + 16.0 == (c.y * 40 + 20) as real;
  }

  /**
   * The grid build: one row per y, one entry per x, each true iff no
   * obstacle's rectangle strictly overlaps the cell rectangle.
   */
  method BuildGrid(obstacles: seq<Obstacle>) returns (grid: seq<seq<bool>>)
    ensures WellShaped(grid)
    ensures forall y, x | 0 <= y < GRID_ROWS && 0 <= x < GRID_COLS ::
              grid[y][x] <==> !Blocked(CellRect(x, y), obstacles)
  {
    grid := [];
    var y := 0;
    while y < GRID_ROWS
      invariant 0 <= y <= GRID_ROWS && |grid| == y
      invariant forall j | 0 <= j < y :: |grid[j]| == GRID_COLS
      invariant forall j, x | 0 <= j < y && 0 <= x < GRID_COLS ::
                  grid[j][x] <==> !Blocked(CellRect(x, j), obstacles)
    {
      var row: seq<bool> := [];
      var x := 0;
      while x < GRID_COLS
        invariant 0 <= x <= GRID_COLS && |row| == x
        invariant forall i | 0 <= i < x :: row[i] <==> !Blocked(CellRect(i, y), obstacles)
      {
        var blocked := CollidesWithAny(CellRect(x, y), obstacles);
        row := row + [!blocked];
        x := x + 1;
      }
      grid := grid + [row];
      y := y + 1;
    }
  }
}
