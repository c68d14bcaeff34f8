/** The map runtime: turns a map's grid description and its path cells into the
    grid placement on the canvas, the centre point of every path cell, and the
    set of "x,y" keys used to refuse tower placement on the path. */
module MapRuntime {
  import opened Common

  datatype Cell = Cell(x: int, y: int)

  /** The grid as stored in the map data; `offsetY` may be absent. */
  datatype GridSpec = GridSpec(cols: int, rows: int, size: int, offsetY: Option<int>)

  datatype MapData = MapData(grid: GridSpec, pathCells: seq<Cell>)

  /** The grid as placed on the canvas (`GRID`). */
  datatype Grid = Grid(cols: int, rows: int, size: int, x: int, y: int)

  datatype MapRuntime = MapRuntime(grid: Grid, pathCells: seq<Cell>, pathPoints: seq<Point>, pathCellSet: set<string>)

  /** Horizontal placement: the grid is centred on the canvas, rounding down. */
  function GridLeft(canvasWidth: int, cols: int, size: int): (x: int)
    ensures 2 * x <= canvasWidth - cols * size < 2 * x + 2
  {
    (canvasWidth - cols * size) / 2
  }

  function PlaceGrid(spec: GridSpec, canvasWidth: int): (g: Grid)
    ensures g.cols == spec.cols && g.rows == spec.rows && g.size == spec.size
    ensures 2 * g.x <= canvasWidth - spec.cols * spec.size < 2 * g.x + 2
    ensures g.y == (if spec.offsetY.Some? then spec.offsetY.value else 30)
  {
    Grid(spec.cols, spec.rows, spec.size, GridLeft(canvasWidth, spec.cols, spec.size), spec.offsetY.GetOr(30))
  }

  /** The canvas point at the middle of cell (cx, cy). */
  function CellCentre(grid: Grid, cx: int, cy: int): (p: Point)
    ensures p.x - (grid.x + cx * grid.size) as real == (grid.x + (cx + 1) * grid.size) as real - p.x
    ensures p.y - (grid.y + cy * grid.size) as real == (grid.y + (cy + 1) * grid.size) as real - p.y
  {
    Point((grid.x + cx * grid.size) as real + grid.size as real / 2.0,
          (grid.y + cy * grid.size) as real + grid.size as real / 2.0)
  }

  /** Reading a cell back from a canvas coordinate, as the click handler does. */
  function CellAt(grid: Grid, p: Point): Cell
    requires grid.size > 0
  {
    Cell(Floor((p.x - grid.x as real) / grid.size as real), Floor((p.y - grid.y as real) / grid.size as real))
  }

  /** Round trip: the centre of a cell is read back as that cell. */
  lemma CellAtCentre(grid: Grid, cx: int, cy: int)
    requires grid.size > 0
    ensures CellAt(grid, CellCentre(grid, cx, cy)) == Cell(cx, cy)
  {
    var s := grid.size as real;
    var p := CellCentre(grid, cx, cy);
    CentreOffset(grid.x, cx, grid.size, p.x);
    CentreOffset(grid.y, cy, grid.size, p.y);
  }

  lemma CentreOffset(origin: int, c: int, size: int, v: real)
    requires size > 0
    requires v == (origin + c * size) as real + size as real / 2.0
    ensures Floor((v - origin as real) / size as real) == c
  {
    var s := size as real;
    assert (c * size) as real == c as real * s;
    assert v - origin as real == (c as real + 0.5) * s;
    var h := c as real + 0.5;
    assert h * s / s == h;
    assert (v - origin as real) / s == h;
  }

  // ---- "x,y" keys -------------------------------------------------------

  function DigitChar(d: nat): (c: char)
    requires d < 10
    ensures '0' <= c <= '9'
  {
    ('0' as int + d) as char
  }

  /** Decimal digits of a natural number, as template literals print it. */
  function NatToString(n: nat): (s: string)
    ensures |s| >= 1
    ensures forall i :: 0 <= i < |s| ==> '0' <= s[i] <= '9'
    ensures n >= 10 ==> |s| >= 2
  {
    if n < 10 then [DigitChar(n)] else NatToString(n / 10) + [DigitChar(n % 10)]
  }

  function IntToString(i: int): (s: string)
    ensures ',' !in s
  {
    if i < 0 then "-" + NatToString(-i) else NatToString(i)
  }

  /** The key `${x},${y}` of a cell. */
  function CellKey(x: int, y: int): string {
    IntToString(x) + "," + IntToString(y)
  }

  lemma {:induction false} NatToStringInjective(m: nat, n: nat)
    requires NatToString(m) == NatToString(n)
    ensures m == n
  {
    if m < 10 && n < 10 {
      assert NatToString(m)[0] == DigitChar(m);
    } else if m >= 10 && n >= 10 {
      var sm, sn := NatToString(m), NatToString(n);
      assert sm[..|sm| - 1] == NatToString(m / 10);
      assert sn[..|sn| - 1] == NatToString(n / 10);
      NatToStringInjective(m / 10, n / 10);
      assert sm[|sm| - 1] == DigitChar(m % 10);
      assert sn[|sn| - 1] == DigitChar(n % 10);
    }
  }

  /** A key starts with '-' exactly when its number is negative. */
  lemma IntToStringSign(i: int)
    ensures (IntToString(i)[0] == '-') == (i < 0)
  {
    if i >= 0 {
      assert '0' <= NatToString(i)[0] <= '9';
    }
  }

  lemma IntToStringInjective(i: int, j: int)
    requires IntToString(i) == IntToString(j)
    ensures i == j
  {
    IntToStringSign(i);
    IntToStringSign(j);
    if i < 0 {
      assert NatToString(-i) == IntToString(i)[1..];
      assert NatToString(-j) == IntToString(j)[1..];
      NatToStringInjective(-i, -j);
    } else {
      NatToStringInjective(i, j);
    }
  }

  /** Position of the first comma of a string that holds one. */
  function FirstComma(k: string): (n: nat)
    requires ',' in k
    ensures n < |k| && k[n] == ','
  {
    if k[0] == ',' then 0 else FirstComma(k[1..])  + 1
  }

  lemma {:induction false} FirstCommaOfJoin(s: string, rest: string)
    requires ',' !in s
    ensures FirstComma(s + "," + rest) == |s|
  {
    if s != [] {
      assert (s + "," + rest)[1..] == s[1..] + "," + rest;
      FirstCommaOfJoin(s[1..], rest);
    }
  }

  /** The separator is the first comma, so a key determines its cell. */
  lemma CellKeyInjective(a: int, b: int, c: int, d: int)
    requires CellKey(a, b) == CellKey(c, d)
    ensures a == c && b == d
  {
    var sa, sb, sc, sd := IntToString(a), IntToString(b), IntToString(c), IntToString(d);
    var k := CellKey(a, b);
    FirstCommaOfJoin(sa, sb);
    FirstCommaOfJoin(sc, sd);
    assert sa == k[..|sa|] && sc == k[..|sc|];
    IntToStringInjective(a, c);
    assert sb == k[|sa| + 1..] && sd == k[|sc| + 1..];
    IntToStringInjective(b, d);
  }

  function PathCellSet(cells: seq<Cell>): set<string> {
    set c | c in cells :: CellKey(c.x, c.y)
  }

  /** `pathCellSet.has("x,y")` holds exactly for the path cells. */
  lemma PathCellSetMembership(cells: seq<Cell>, x: int, y: int)
    ensures CellKey(x, y) in PathCellSet(cells) <==> Cell(x, y) in cells
  {
    if CellKey(x, y) in PathCellSet(cells) {
      var c :| c in cells && CellKey(c.x, c.y) == CellKey(x, y);
      CellKeyInjective(c.x, c.y, x, y);
    }
  }

  function PathPoints(grid: Grid, cells: seq<Cell>): (pts: seq<Point>)
    ensures |pts| == |cells|
    ensures forall i :: 0 <= i < |cells| ==> pts[i] == CellCentre(grid, cells[i].x, cells[i].y)
  {
    seq(|cells|, i requires 0 <= i < |cells| => CellCentre(grid, cells[i].x, cells[i].y))
  }

  /** createMapRuntime: one centre point per path cell, in path order, and the
      key set of the path cells. */
  function CreateMapRuntime(data: MapData, canvasWidth: int): (m: MapRuntime)
    ensures m.grid == PlaceGrid(data.grid, canvasWidth)
    ensures m.pathCells == data.pathCells
    ensures |m.pathPoints| == |data.pathCells|
    ensures forall i :: 0 <= i < |data.pathCells| ==>
      m.pathPoints[i] == CellCentre(m.grid, data.pathCells[i].x, data.pathCells[i].y)
    ensures forall x, y :: CellKey(x, y) in m.pathCellSet <==> Cell(x, y) in data.pathCells
  {
    var grid := PlaceGrid(data.grid, canvasWidth);
    forall x, y ensures CellKey(x, y) in PathCellSet(data.pathCells) <==> Cell(x, y) in data.pathCells {
      PathCellSetMembership(data.pathCells, x, y);
    }
    MapRuntime(grid, data.pathCells, PathPoints(grid, data.pathCells), PathCellSet(data.pathCells))
  }
}
