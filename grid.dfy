/** Model of src/game/grid.js: the tiles of the map, the procedural island
    generation done by the grid's constructor, hit-testing with getTileAt and
    the rectangles and colours that draw emits.

    Numbers are modelled as mathematical reals: the IEEE rounding of
    JavaScript's arithmetic is not modelled, and `Math.sqrt` is avoided by
    comparing squares (see IslandTestIsDistanceTest). `Math.random` is an
    oracle `random: nat -> real`, the values its successive calls return. */
module MapGrid {

  datatype Option<T> = None | Some(value: T)

  /** The tile types. `Plain` is the default of the Tile constructor;
      generation only ever uses the other three. */
  datatype TileType = Plain | Water | Grass | Gold

  /** Probability with which an island tile is promoted from grass to gold. */
  const GoldChance: real := 0.02

  /** How many times `for (let i = 0; i < n; i++)` runs its body. */
  function Count(n: int): nat
  {
    if n < 0 then 0 else n
  }

  function Min(a: int, b: int): int
  {
    if a < b then a else b
  }

  // ---------------------------------------------------------------------
  // Island geometry

  /** The island radius `Math.min(cols, rows) / 2 - 5`. */
  function MaxRadius(cols: int, rows: int): real
  {
    Min(cols, rows) as real / 2.0 - 5.0
  }

  /** Squared distance of tile (x, y) from the centre (cols / 2, rows / 2). */
  function DistSq(cols: int, rows: int, x: int, y: int): real
  {
    var dx := x as real - cols as real / 2.0;
    var dy := y as real - rows as real / 2.0;
    dx * dx + dy * dy
  }

  /** The jittered radius `maxRadius * (0.8 + jitter * 0.2)`. */
  function Threshold(cols: int, rows: int, jitter: real): real
  {
    MaxRadius(cols, rows) * (0.8 + jitter * 0.2)
  }

  /** The island test `dist < threshold` for a tile, stated on squares. */
  predicate InIsland(cols: int, rows: int, x: int, y: int, jitter: real)
  {
    var t := Threshold(cols, rows, jitter);
    t > 0.0 && DistSq(cols, rows, x, y) < t * t
  }

  /** For a non-negative s, `s < t` is the same as comparing squares when t is positive. */
  lemma SquaredLess(s: real, t: real)
    requires s >= 0.0
    ensures s < t <==> (t > 0.0 && s * s < t * t)
  {
    assert t * t - s * s == (t - s) * (t + s);
    if s < t {
      ProductPositive(t - s, t + s);
    } else if t > 0.0 {
      ProductNonNegative(s - t, s + t);
    }
  }

  lemma ProductPositive(a: real, b: real)
    requires a > 0.0 && b > 0.0
    ensures a * b > 0.0
  {}

  lemma ProductNonNegative(a: real, b: real)
    requires a >= 0.0 && b >= 0.0
    ensures a * b >= 0.0
  {}

  /** InIsland is the source's test `Math.sqrt(dx*dx + dy*dy) < threshold`:
      `dist` stands for the square root. */
  lemma IslandTestIsDistanceTest(cols: int, rows: int, x: int, y: int, jitter: real, dist: real)
    requires dist >= 0.0 && dist * dist == DistSq(cols, rows, x, y)
    ensures InIsland(cols, rows, x, y, jitter) <==> dist < Threshold(cols, rows, jitter)
  {
    SquaredLess(dist, Threshold(cols, rows, jitter));
  }

  /** With a jitter in [0, 1) the threshold is at most the radius, and not positive
      when the radius is not. */
  lemma ThresholdBounds(cols: int, rows: int, jitter: real)
    requires 0.0 <= jitter < 1.0
    ensures MaxRadius(cols, rows) <= 0.0 ==> Threshold(cols, rows, jitter) <= 0.0
    ensures MaxRadius(cols, rows) > 0.0 ==> Threshold(cols, rows, jitter) < MaxRadius(cols, rows)
  {
    var m, f := MaxRadius(cols, rows), 0.8 + jitter * 0.2;
    assert 0.8 <= f < 1.0;
    if m <= 0.0 {
      ProductNonNegative(-m, f);
      assert (-m) * f == -(m * f);
    } else {
      ProductPositive(m, 1.0 - f);
      assert m * (1.0 - f) == m - m * f;
    }
  }

  // ---------------------------------------------------------------------
  // Procedural generation, as a specification of the constructor's loops

  /** The type of tile (x, y) when the next unused random number is random(k),
      and the index of the first number left unused. The island test consumes
      random(k); only a tile that passes it takes a second number for the gold
      roll, because `type === 'grass' && Math.random() < 0.02` short-circuits. */
  function Classify(cols: int, rows: int, x: int, y: int, random: nat -> real, k: nat): (TileType, nat)
  {
    if !InIsland(cols, rows, x, y, random(k)) then (Water, k + 1)
    else if random(k + 1) < GoldChance then (Gold, k + 2)
    else (Grass, k + 2)
  }

  /** The types of tiles (x, 0) .. (x, n - 1) generated from random(k) on, and
      the index of the first number left unused. */
  function ColumnTypes(cols: int, rows: int, x: int, n: nat, random: nat -> real, k: nat): (r: (seq<TileType>, nat))
    ensures |r.0| == n
    ensures k + n <= r.1 <= k + 2 * n
    decreases n
  {
    if n == 0 then ([], k)
    else
      var (kinds, next) := ColumnTypes(cols, rows, x, n - 1, random, k);
      var (kind, after) := Classify(cols, rows, x, n - 1, random, next);
      (kinds + [kind], after)
  }

  /** The types of columns 0 .. m - 1 generated from random(k) on, and the index
      of the first number left unused. */
  function Columns(cols: int, rows: int, m: nat, random: nat -> real, k: nat): (r: (seq<seq<TileType>>, nat))
    ensures |r.0| == m
    ensures forall i :: 0 <= i < m ==> |r.0[i]| == Count(rows)
    ensures k + m * Count(rows) <= r.1 <= k + 2 * m * Count(rows)
    decreases m
  {
    if m == 0 then ([], k)
    else
      var (done, next) := Columns(cols, rows, m - 1, random, k);
      var (column, after) := ColumnTypes(cols, rows, m - 1, Count(rows), random, next);
      MultipleStep(m, Count(rows));
      (done + [column], after)
  }

  lemma MultipleStep(m: nat, c: nat)
    requires m > 0
    ensures (m - 1) * c + c == m * c
    ensures 2 * (m - 1) * c + 2 * c == 2 * m * c
  {}

  /** The tile types a `cols` x `rows` grid is generated with, `Layout(..)[x][y]`
      being the type of tile (x, y). */
  function Layout(cols: int, rows: int, random: nat -> real): (r: seq<seq<TileType>>)
    ensures |r| == Count(cols)
    ensures forall x :: 0 <= x < |r| ==> |r[x]| == Count(rows)
  {
    Columns(cols, rows, Count(cols), random, 0).0
  }

  /** Index of the random number that the island test of tile (x, y) consumes. */
  function RandomIndex(cols: int, rows: int, random: nat -> real, x: nat, y: nat): nat
  {
    ColumnTypes(cols, rows, x, y, random, Columns(cols, rows, x, random, 0).1).1
  }

  lemma {:induction false} ColumnTypesAt(cols: int, rows: int, x: int, n: nat, random: nat -> real, k: nat, y: nat)
    requires y < n
    ensures ColumnTypes(cols, rows, x, n, random, k).0[y]
         == Classify(cols, rows, x, y, random, ColumnTypes(cols, rows, x, y, random, k).1).0
  {
    if y < n - 1 {
      ColumnTypesAt(cols, rows, x, n - 1, random, k, y);
    }
  }

  lemma {:induction false} ColumnsAt(cols: int, rows: int, m: nat, random: nat -> real, k: nat, x: nat)
    requires x < m
    ensures Columns(cols, rows, m, random, k).0[x]
         == ColumnTypes(cols, rows, x, Count(rows), random, Columns(cols, rows, x, random, k).1).0
  {
    if x < m - 1 {
      ColumnsAt(cols, rows, m - 1, random, k, x);
    }
  }

  /** A column of more tiles consumes at least one more random number per extra tile. */
  lemma {:induction false} ColumnTypesGrows(cols: int, rows: int, x: int, n: nat, n': nat, random: nat -> real, k: nat)
    requires n <= n'
    ensures ColumnTypes(cols, rows, x, n, random, k).1 + (n' - n) <= ColumnTypes(cols, rows, x, n', random, k).1
    decreases n'
  {
    if n < n' {
      ColumnTypesGrows(cols, rows, x, n, n' - 1, random, k);
    }
  }

  /** Generating more columns never gives back a random number. */
  lemma {:induction false} ColumnsGrows(cols: int, rows: int, m: nat, m': nat, random: nat -> real, k: nat)
    requires m <= m'
    ensures Columns(cols, rows, m, random, k).1 <= Columns(cols, rows, m', random, k).1
    decreases m'
  {
    if m < m' {
      ColumnsGrows(cols, rows, m, m' - 1, random, k);
    }
  }

  /** No two tiles share a random number: every number tile (x, y) consumes
      comes before the first one a later tile (x', y') consumes, in the
      column-major order of the constructor's loops. */
  lemma RandomNumbersNotShared(cols: int, rows: int, random: nat -> real, x: nat, y: nat, x': nat, y': nat)
    requires y < Count(rows) && y' < Count(rows)
    requires x < x' || (x == x' && y < y')
    ensures RandomIndex(cols, rows, random, x, y) < RandomIndex(cols, rows, random, x', y')
    ensures Classify(cols, rows, x, y, random, RandomIndex(cols, rows, random, x, y)).1
         <= RandomIndex(cols, rows, random, x', y')
  {
    var start := Columns(cols, rows, x, random, 0).1;
    assert Classify(cols, rows, x, y, random, RandomIndex(cols, rows, random, x, y)).1
        == ColumnTypes(cols, rows, x, y + 1, random, start).1;
    if x == x' {
      ColumnTypesGrows(cols, rows, x, y + 1, y', random, start);
    } else {
      ColumnTypesGrows(cols, rows, x, y + 1, Count(rows), random, start);
      assert ColumnTypes(cols, rows, x, Count(rows), random, start).1 == Columns(cols, rows, x + 1, random, 0).1;
      ColumnsGrows(cols, rows, x + 1, x', random, 0);
    }
  }

  /** Tile (x, y) of the layout is classified with the random numbers starting
      at RandomIndex: generation treats every tile by the same rule. */
  lemma LayoutAt(cols: int, rows: int, random: nat -> real, x: nat, y: nat)
    requires x < Count(cols) && y < Count(rows)
    ensures Layout(cols, rows, random)[x][y] == Classify(cols, rows, x, y, random, RandomIndex(cols, rows, random, x, y)).0
  {
    ColumnsAt(cols, rows, Count(cols), random, 0, x);
    ColumnTypesAt(cols, rows, x, Count(rows), random, Columns(cols, rows, x, random, 0).1, y);
  }

  /** What the generated type of a tile means: never plain; water exactly when
      the island test fails; gold exactly when the island test passes and the
      gold roll is below the chance; grass otherwise. */
  lemma LayoutTypes(cols: int, rows: int, random: nat -> real, x: nat, y: nat)
    requires x < Count(cols) && y < Count(rows)
    ensures var kind, k := Layout(cols, rows, random)[x][y], RandomIndex(cols, rows, random, x, y);
      && kind != Plain
      && (kind == Water <==> !InIsland(cols, rows, x, y, random(k)))
      && (kind == Gold <==> InIsland(cols, rows, x, y, random(k)) && random(k + 1) < GoldChance)
      && (kind == Grass <==> InIsland(cols, rows, x, y, random(k)) && random(k + 1) >= GoldChance)
  {
    LayoutAt(cols, rows, random, x, y);
  }

  /** When the island radius is not positive the whole map is water, whatever
      the random numbers in [0, 1) are. */
  lemma AllWaterWhenRadiusNotPositive(cols: int, rows: int, random: nat -> real)
    requires MaxRadius(cols, rows) <= 0.0
    requires forall i :: 0.0 <= random(i) < 1.0
    ensures forall x, y :: 0 <= x < Count(cols) && 0 <= y < Count(rows) ==> Layout(cols, rows, random)[x][y] == Water
  {
    forall x, y | 0 <= x < Count(cols) && 0 <= y < Count(rows)
      ensures Layout(cols, rows, random)[x][y] == Water
    {
      LayoutAt(cols, rows, random, x, y);
      ThresholdBounds(cols, rows, random(RandomIndex(cols, rows, random, x, y)));
    }
  }

  /** A tile whose distance `dist` from the centre is at least the radius is
      water, since the jitter factor is below 1. */
  lemma WaterBeyondRadius(cols: int, rows: int, random: nat -> real, x: nat, y: nat, dist: real)
    requires x < Count(cols) && y < Count(rows)
    requires forall i :: 0.0 <= random(i) < 1.0
    requires dist >= 0.0 && dist * dist == DistSq(cols, rows, x, y)
    requires dist >= MaxRadius(cols, rows)
    ensures Layout(cols, rows, random)[x][y] == Water
  {
    var jitter := random(RandomIndex(cols, rows, random, x, y));
    LayoutAt(cols, rows, random, x, y);
    ThresholdBounds(cols, rows, jitter);
    IslandTestIsDistanceTest(cols, rows, x, y, jitter, dist);
  }

  // ---------------------------------------------------------------------
  // Drawing

  datatype Rect = Rect(left: real, top: real, width: real, height: real)

  /** One call on the 2D context: a filled or an outlined rectangle in a colour. */
  datatype Command = FillRect(area: Rect, style: string) | StrokeRect(area: Rect, style: string)

  const OutlineStyle: string := "#222"

  /** The fill colour of a tile. Water falls through to the same colour as gold. */
  function FillStyle(selected: bool, kind: TileType): (c: string)
    ensures c == "#888" <==> selected
    ensures !selected ==> c == (match kind
                                case Plain => "#555"
                                case Grass => "#3a7d3a"
                                case Water => "#aa0"
                                case Gold => "#aa0")
  {
    if selected then "#888"
    else if kind == Plain then "#555"
    else if kind == Grass then "#3a7d3a"
    else "#aa0"
  }

  /** A world coordinate on screen: `(w - camera) * scale`. */
  function WorldToScreen(w: real, camera: real, scale: real): real
  {
    (w - camera) * scale
  }

  /** The screen rectangle of tile (x, y). */
  function TileRect(x: int, y: int, tileSize: int, scale: real, cameraX: real, cameraY: real): Rect
  {
    var size := tileSize as real * scale;
    Rect(WorldToScreen(x as real * tileSize as real, cameraX, scale),
         WorldToScreen(y as real * tileSize as real, cameraY, scale), size, size)
  }

  /** cmds[i] and cmds[i + 1] fill and outline tile t's rectangle. */
  ghost predicate DrawsTile(cmds: seq<Command>, i: nat, t: Tile, tileSize: int, scale: real, cameraX: real, cameraY: real)
    reads t
  {
    var area := TileRect(t.x, t.y, tileSize, scale, cameraX, cameraY);
    i + 1 < |cmds| && cmds[i] == FillRect(area, FillStyle(t.selected, t.kind)) && cmds[i + 1] == StrokeRect(area, OutlineStyle)
  }

  lemma DrawsTileExtended(cmds: seq<Command>, more: seq<Command>, i: nat, t: Tile, tileSize: int, scale: real, cameraX: real, cameraY: real)
    requires DrawsTile(cmds, i, t, tileSize, scale, cameraX, cameraY)
    ensures DrawsTile(cmds + more, i, t, tileSize, scale, cameraX, cameraY)
  {
    assert (cmds + more)[i] == cmds[i] && (cmds + more)[i + 1] == cmds[i + 1];
  }

  lemma DrawsTilePrefixed(cmds: seq<Command>, more: seq<Command>, i: nat, t: Tile, tileSize: int, scale: real, cameraX: real, cameraY: real)
    requires DrawsTile(more, i, t, tileSize, scale, cameraX, cameraY)
    ensures DrawsTile(cmds + more, |cmds| + i, t, tileSize, scale, cameraX, cameraY)
  {
    assert (cmds + more)[|cmds| + i] == more[i] && (cmds + more)[|cmds| + i + 1] == more[i + 1];
  }

  /** Position of tile (x, y) in the column-major drawing order. */
  function CellIndex(x: int, y: int, rows: int): int
  {
    x * rows + y
  }

  /** Finishing a column of `rows` cells lands on the first cell of the next. */
  lemma CellIndexNextColumn(x: int, rows: int)
    ensures CellIndex(x, rows, rows) == CellIndex(x + 1, 0, rows)
  {
    assert (x + 1) * rows == x * rows + rows;
  }

  /** The inner loop of the grid constructor: makes the tiles of column x,
      taking random numbers from random(k) on; `next` is the first one left. */
  method GenerateColumn(cols: int, rows: int, x: int, random: nat -> real, k: nat) returns (column: seq<Tile>, next: nat)
    ensures |column| == Count(rows)
    ensures ColumnTypes(cols, rows, x, Count(rows), random, k).1 == next
    ensures forall j :: 0 <= j < |column| ==>
      && column[j].x == x && column[j].y == j
      && column[j].kind == ColumnTypes(cols, rows, x, Count(rows), random, k).0[j]
      && fresh(column[j]) && !column[j].selected
  {
    column := [];
    next := k;
    var y := 0;
    while y < rows
      invariant 0 <= y <= Count(rows) && |column| == y
      invariant ColumnTypes(cols, rows, x, y, random, k).1 == next
      invariant forall j :: 0 <= j < y ==>
        && column[j].x == x && column[j].y == j
        && column[j].kind == ColumnTypes(cols, rows, x, y, random, k).0[j]
        && fresh(column[j]) && !column[j].selected
    {
      var jitter := random(next);
      next := next + 1;
      var kind := Water;
      if InIsland(cols, rows, x, y, jitter) {
        kind := Grass;
      }
      if kind == Grass {
        var roll := random(next);
        next := next + 1;
        if roll < GoldChance {
          kind := Gold;
        }
      }
      var tile := new Tile(x, y, kind);
      column := column + [tile];
      y := y + 1;
    }
  }

  // ---------------------------------------------------------------------
  // Tiles and the grid

  /** A tile. Its coordinates and type are never written after construction;
      `selected` is toggled by the click handler. */
  class Tile {
    const x: int
    const y: int
    const kind: TileType
    var selected: bool

    constructor (x: int, y: int, kind: TileType := Plain)
      ensures this.x == x && this.y == y && this.kind == kind && !selected
    {
      this.x := x;
      this.y := y;
      this.kind := kind;
      selected := false;
    }
  }

  class Grid {
    const cols: int
    const rows: int
    const tileSize: int
    /** tiles[x][y] is the tile in column x, row y. */
    const tiles: seq<seq<Tile>>

    /** Fully populated: `cols` columns of `rows` tiles each, every tile
        carrying its own indices. */
    predicate Valid()
    {
      && |tiles| == Count(cols)
      && (forall x :: 0 <= x < |tiles| ==> |tiles[x]| == Count(rows))
      && (forall x, y :: 0 <= x < |tiles| && 0 <= y < |tiles[x]| ==> tiles[x][y].x == x && tiles[x][y].y == y)
    }

    /** The grid's tile types are those of Layout for the random numbers used. */
    predicate Generated(random: nat -> real)
    {
      && Valid()
      && forall x, y :: 0 <= x < |tiles| && 0 <= y < |tiles[x]| ==>
           tiles[x][y].kind == Layout(cols, rows, random)[x][y]
    }

    ghost function TileSet(): set<Tile>
    {
      set x, y | 0 <= x < |tiles| && 0 <= y < |tiles[x]| :: tiles[x][y]
    }

    /** Builds the map column by column; `random(k)` is the value of the
        (k + 1)-th call of `Math.random()` made by this constructor. */
    constructor (cols: int, rows: int, tileSize: int, random: nat -> real)
      ensures this.cols == cols && this.rows == rows && this.tileSize == tileSize
      ensures Generated(random)
      ensures forall t :: t in TileSet() ==> fresh(t) && !t.selected
    {
      this.cols := cols;
      this.rows := rows;
      this.tileSize := tileSize;
      var columns: seq<seq<Tile>> := [];
      var k: nat := 0;
      var x := 0;
      while x < cols
        invariant 0 <= x <= Count(cols) && |columns| == x
        invariant Columns(cols, rows, x, random, 0).1 == k
        invariant forall i :: 0 <= i < x ==> |columns[i]| == Count(rows)
        invariant forall i, j :: 0 <= i < x && 0 <= j < |columns[i]| ==>
          && columns[i][j].x == i && columns[i][j].y == j
          && columns[i][j].kind == Columns(cols, rows, x, random, 0).0[i][j]
          && fresh(columns[i][j]) && !columns[i][j].selected
      {
        var column;
        column, k := GenerateColumn(cols, rows, x, random, k);
        columns := columns + [column];
        x := x + 1;
      }
      tiles := columns;
    }

    /** getTileAt: the tile under world point (px, py), found by floor-dividing
        by the tile size, or None off the map. With a zero tile size JavaScript
        divides to NaN or an infinity, which fails the bounds check. */
    function TileAt(px: real, py: real): (r: Option<Tile>)
      requires Valid()
      ensures tileSize == 0 ==> r == None
      ensures tileSize != 0 ==>
        var x, y := (px / tileSize as real).Floor, (py / tileSize as real).Floor;
        && (r.Some? <==> 0 <= x < cols && 0 <= y < rows)
        && (r.Some? ==> r.value == tiles[x][y])
    {
      if tileSize == 0 then None
      else
        var x := (px / tileSize as real).Floor;
        var y := (py / tileSize as real).Floor;
        if 0 <= x < cols && 0 <= y < rows then Some(tiles[x][y]) else None
    }

    /** Hit-testing round-trips: every point of tile (x, y)'s square finds that tile. */
    lemma TileAtRoundTrip(x: int, y: int, ox: real, oy: real)
      requires Valid() && tileSize > 0
      requires 0 <= x < cols && 0 <= y < rows
      requires 0.0 <= ox < tileSize as real && 0.0 <= oy < tileSize as real
      ensures TileAt(x as real * tileSize as real + ox, y as real * tileSize as real + oy) == Some(tiles[x][y])
    {
      TileAtPoint(x as real * tileSize as real + ox, y as real * tileSize as real + oy, x, y, ox, oy);
    }

    lemma TileAtPoint(px: real, py: real, x: int, y: int, ox: real, oy: real)
      requires Valid() && tileSize > 0
      requires 0 <= x < cols && 0 <= y < rows
      requires 0.0 <= ox < tileSize as real && 0.0 <= oy < tileSize as real
      requires px == x as real * tileSize as real + ox && py == y as real * tileSize as real + oy
      ensures TileAt(px, py) == Some(tiles[x][y])
    {
      FloorOfCell(x, ox, tileSize as real, px);
      FloorOfCell(y, oy, tileSize as real, py);
      TileAtCell(px, py, x, y);
    }

    lemma TileAtCell(px: real, py: real, x: int, y: int)
      requires Valid() && tileSize != 0
      requires 0 <= x < cols && 0 <= y < rows
      requires (px / tileSize as real).Floor == x && (py / tileSize as real).Floor == y
      ensures TileAt(px, py) == Some(tiles[x][y])
    {}

    /** draw: fills and outlines every tile, in column-major order, with its
        screen rectangle and the colour of its type and selection. */
    method Draw(scale: real := 1.0, cameraX: real := 0.0, cameraY: real := 0.0) returns (cmds: seq<Command>)
      requires Valid()
      ensures |cmds| == 2 * Count(cols) * Count(rows)
      ensures forall x, y :: 0 <= x < |tiles| && 0 <= y < |tiles[x]| ==>
        DrawsTile(cmds, 2 * CellIndex(x, y, Count(rows)), tiles[x][y], tileSize, scale, cameraX, cameraY)
    {
      var r := Count(rows);
      cmds := [];
      var x := 0;
      while x < cols
        invariant 0 <= x <= Count(cols)
        invariant |cmds| == 2 * CellIndex(x, 0, r)
        invariant forall i, j :: 0 <= i < x && 0 <= j < r ==>
          DrawsTile(cmds, 2 * CellIndex(i, j, r), tiles[i][j], tileSize, scale, cameraX, cameraY)
      {
        var column := DrawColumn(x, scale, cameraX, cameraY);
        ghost var before := cmds;
        cmds := cmds + column;
        forall i, j | 0 <= i <= x && 0 <= j < r
          ensures DrawsTile(cmds, 2 * CellIndex(i, j, r), tiles[i][j], tileSize, scale, cameraX, cameraY)
        {
          if i < x {
            DrawsTileExtended(before, column, 2 * CellIndex(i, j, r), tiles[i][j], tileSize, scale, cameraX, cameraY);
          } else {
            DrawsTilePrefixed(before, column, 2 * j, tiles[i][j], tileSize, scale, cameraX, cameraY);
          }
        }
        CellIndexNextColumn(x, r);
        x := x + 1;
      }
      assert 2 * Count(cols) * r == 2 * CellIndex(x, 0, r);
    }

    /** The inner loop of draw: the commands for column x. */
    method DrawColumn(x: int, scale: real, cameraX: real, cameraY: real) returns (cmds: seq<Command>)
      requires Valid() && 0 <= x < cols
      ensures |cmds| == 2 * Count(rows)
      ensures forall y :: 0 <= y < Count(rows) ==>
        DrawsTile(cmds, 2 * y, tiles[x][y], tileSize, scale, cameraX, cameraY)
    {
      cmds := [];
      var y := 0;
      while y < rows
        invariant 0 <= y <= Count(rows)
        invariant |cmds| == 2 * y
        invariant forall j :: 0 <= j < y ==> DrawsTile(cmds, 2 * j, tiles[x][j], tileSize, scale, cameraX, cameraY)
      {
        var tile := tiles[x][y];
        var px := (x as real * tileSize as real - cameraX) * scale;
        var py := (y as real * tileSize as real - cameraY) * scale;
        var size := tileSize as real * scale;
        var area := Rect(px, py, size, size);
        assert area == TileRect(tile.x, tile.y, tileSize, scale, cameraX, cameraY);
        ghost var before := cmds;
        var issued := [FillRect(area, FillStyle(tile.selected, tile.kind)), StrokeRect(area, OutlineStyle)];
        cmds := cmds + issued;
        forall j | 0 <= j < y
          ensures DrawsTile(cmds, 2 * j, tiles[x][j], tileSize, scale, cameraX, cameraY)
        {
          DrawsTileExtended(before, issued, 2 * j, tiles[x][j], tileSize, scale, cameraX, cameraY);
        }
        y := y + 1;
      }
    }
  }

  /** Floor division finds the cell of a point `offset` into cell n. */
  lemma FloorOfCell(n: int, offset: real, size: real, p: real)
    requires size > 0.0 && 0.0 <= offset < size
    requires p == n as real * size + offset
    ensures (p / size).Floor == n
  {
    var q := offset / size;
    assert q * size == offset;
    if q >= 1.0 {
      ProductNonNegative(q - 1.0, size);
      assert false;
    }
    if q < 0.0 {
      ProductPositive(-q, size);
      assert false;
    }
    assert p / size == n as real + q;
  }
}
