/** Model of the session state of src/main.js: the menu/playing state, the
    zoom scale, the camera offset, the current grid and the selected tile,
    and the handlers that change them (initGame, toggleMenu, zoom, the click
    handler and the keydown dispatch). Canvas, DOM and frame scheduling are
    not modelled; a click arrives as canvas-relative screen coordinates and
    `Math.random` as the oracle the grid constructor takes. */
module GameSession {
  import opened MapGrid

  const Cols: int := 32
  const Rows: int := 24
  const BaseTileSize: int := 32

  /** The zoom range. */
  const MinScale: real := 0.2
  const MaxScale: real := 3.0

  /** The factors of the '+' and '-' keys. */
  const ZoomInFactor: real := 1.1
  const ZoomOutFactor: real := 0.9

  datatype GameState = Menu | Playing

  /** getTileSize: the tile size does not depend on the zoom; draw applies the scale. */
  function TileSize(): int
  {
    BaseTileSize
  }

  /** The state toggleMenu moves to. */
  function Toggled(s: GameState): (r: GameState)
    ensures r != s
  {
    if s == Playing then Menu else Playing
  }

  lemma ToggledTwice(s: GameState)
    ensures Toggled(Toggled(s)) == s
  {}

  /** `Math.max(0.2, Math.min(3, v))`. */
  function Clamp(v: real): (r: real)
    ensures MinScale <= r <= MaxScale
    ensures MinScale <= v <= MaxScale ==> r == v
    ensures v < MinScale ==> r == MinScale
    ensures v > MaxScale ==> r == MaxScale
  {
    var upper := if MaxScale < v then MaxScale else v;
    if MinScale > upper then MinScale else upper
  }

  /** The click handler's screen-to-world conversion `s / scale + camera`. */
  function ScreenToWorld(s: real, scale: real, camera: real): real
    requires scale != 0.0
  {
    s / scale + camera
  }

  /** Screen-to-world undoes draw's world-to-screen transform. */
  lemma ScreenToWorldUndoesDraw(w: real, camera: real, scale: real)
    requires scale != 0.0
    ensures ScreenToWorld(WorldToScreen(w, camera, scale), scale, camera) == w
  {
    assert (w - camera) * scale / scale == w - camera;
  }

  /** The tile under screen point (sx, sy), as the click handler looks it up. */
  function Pick(g: Grid, sx: real, sy: real, scale: real, cameraX: real, cameraY: real): Option<Tile>
    requires g.Valid() && scale != 0.0
  {
    g.TileAt(ScreenToWorld(sx, scale, cameraX), ScreenToWorld(sy, scale, cameraY))
  }

  lemma ScaledOffset(d: real, size: real, scale: real)
    requires scale > 0.0 && 0.0 <= d < size * scale
    ensures 0.0 <= d / scale < size
  {
    var q := d / scale;
    assert q * scale == d;
    if q >= size {
      ProductNonNegative(q - size, scale);
      assert false;
    }
    if q < 0.0 {
      ProductPositive(-q, scale);
      assert false;
    }
  }

  /** Draw and click agree: a click anywhere inside the rectangle draw gives
      tile (x, y) picks that tile. */
  lemma DrawnTileIsPicked(g: Grid, x: int, y: int, scale: real, cameraX: real, cameraY: real, sx: real, sy: real)
    requires g.Valid() && g.tileSize > 0 && scale > 0.0
    requires 0 <= x < g.cols && 0 <= y < g.rows
    requires var area := TileRect(x, y, g.tileSize, scale, cameraX, cameraY);
      area.left <= sx < area.left + area.width && area.top <= sy < area.top + area.height
    ensures Pick(g, sx, sy, scale, cameraX, cameraY) == Some(g.tiles[x][y])
  {
    var size := g.tileSize as real;
    var area := TileRect(x, y, g.tileSize, scale, cameraX, cameraY);
    var ox := ScreenToWorld(sx, scale, cameraX) - x as real * size;
    var oy := ScreenToWorld(sy, scale, cameraY) - y as real * size;
    assert 0.0 <= ox < size by {
      CornerOffset(x as real * size, cameraX, scale, sx, size);
    }
    assert 0.0 <= oy < size by {
      CornerOffset(y as real * size, cameraY, scale, sy, size);
    }
    g.TileAtPoint(ScreenToWorld(sx, scale, cameraX), ScreenToWorld(sy, scale, cameraY), x, y, ox, oy);
  }

  /** A screen point within `size * scale` right of the screen position of
      world point `corner` maps back to within `size` right of `corner`. */
  lemma CornerOffset(corner: real, camera: real, scale: real, s: real, size: real)
    requires scale > 0.0
    requires WorldToScreen(corner, camera, scale) <= s < WorldToScreen(corner, camera, scale) + size * scale
    ensures 0.0 <= ScreenToWorld(s, scale, camera) - corner < size
  {
    var left := WorldToScreen(corner, camera, scale);
    var d := s - left;
    ScaledOffset(d, size, scale);
    assert s / scale == left / scale + d / scale;
    assert left / scale == corner - camera;
  }

  /** The module-level state of src/main.js. */
  class Session {
    var grid: Option<Grid>
    var selectedTile: Option<Tile>
    var gameState: GameState
    var scale: real
    var cameraX: real
    var cameraY: real

    /** The tiles the session can reach: those of the current grid and the
        selected one, which after a restart may belong to an earlier grid. */
    ghost function Tiles(): set<Tile>
      reads this
    {
      (if grid.Some? then grid.value.TileSet() else {}) + (if selectedTile.Some? then {selectedTile.value} else {})
    }

    /** The session invariant: the grid is well formed, the scale is in the
        zoom range, and the selected tile is the only reachable tile whose
        `selected` flag is set. */
    ghost predicate Valid()
      reads this, Tiles()
    {
      && (grid.Some? ==> grid.value.Valid())
      && MinScale <= scale <= MaxScale
      && (selectedTile.Some? ==> selectedTile.value.selected)
      && (forall t :: t in Tiles() && t.selected ==> selectedTile == Some(t))
    }

    /** The state initGame leaves: playing on a generated COLS x ROWS grid. */
    ghost predicate Started(random: nat -> real)
      reads this
    {
      && gameState == Playing
      && grid.Some?
      && grid.value.cols == Cols && grid.value.rows == Rows && grid.value.tileSize == TileSize()
      && grid.value.Generated(random)
    }

    /** At most one reachable tile is selected. */
    lemma AtMostOneSelected(t: Tile, u: Tile)
      requires Valid()
      requires t in Tiles() && u in Tiles() && t.selected && u.selected
      ensures t == u
    {}

    constructor ()
      ensures Valid()
      ensures grid == None && selectedTile == None && gameState == Menu
      ensures scale == 1.0 && cameraX == 0.0 && cameraY == 0.0
    {
      grid := None;
      selectedTile := None;
      gameState := Menu;
      scale := 1.0;
      cameraX := 0.0;
      cameraY := 0.0;
    }

    /** initGame: a fresh grid and the playing state. The selection is kept. */
    method InitGame(random: nat -> real)
      requires Valid()
      modifies this`grid, this`gameState
      ensures Valid() && Started(random)
      ensures fresh(grid.value)
      ensures forall t :: t in grid.value.TileSet() ==> fresh(t) && !t.selected
    {
      var g := new Grid(Cols, Rows, TileSize(), random);
      grid := Some(g);
      gameState := Playing;
    }

    /** toggleMenu. */
    method ToggleMenu()
      requires Valid()
      modifies this`gameState
      ensures Valid()
      ensures gameState == Toggled(old(gameState))
    {
      gameState := Toggled(gameState);
    }

    /** zoom: multiply the scale, then clamp it to the zoom range. */
    method Zoom(factor: real)
      requires Valid()
      modifies this`scale
      ensures Valid()
      ensures scale == Clamp(old(scale) * factor)
    {
      scale := scale * factor;
      scale := Clamp(scale);
    }

    /** The click handler. Outside play it does nothing. In play it converts
        the point to world coordinates and looks the tile up; with no grid
        (play entered by Escape before any start) that lookup throws a
        TypeError, reported as `fault`, before anything changes. A hit moves
        the single selection to the tile found; a miss changes nothing. */
    method Click(sx: real, sy: real) returns (fault: bool)
      requires Valid()
      modifies this`selectedTile, Tiles()
      ensures Valid()
      ensures fault <==> gameState == Playing && grid.None?
      ensures var hit := if gameState == Playing && grid.Some?
                         then Pick(grid.value, sx, sy, scale, cameraX, cameraY) else None;
        if hit.None? then
          && selectedTile == old(selectedTile)
          && forall t :: t in old(Tiles()) ==> t.selected == old(t.selected)
        else
          && selectedTile == hit && hit.value in old(Tiles()) && hit.value.selected
          && forall t :: t in old(Tiles()) ==> (t.selected <==> t == hit.value)
    {
      fault := false;
      if gameState != Playing {
        return;
      }
      var px := ScreenToWorld(sx, scale, cameraX);
      var py := ScreenToWorld(sy, scale, cameraY);
      if grid.None? {
        fault := true;
        return;
      }
      var tile := grid.value.TileAt(px, py);
      if tile.Some? {
        assert tile.value in grid.value.TileSet();
        if selectedTile.Some? {
          selectedTile.value.selected := false;
        }
        selectedTile := tile;
        tile.value.selected := true;
      }
    }

    /** The keydown handler: Escape toggles the menu, Enter starts a game
        from the menu, '+' and '-' zoom. */
    method KeyDown(key: string, random: nat -> real)
      requires Valid()
      modifies this`grid, this`gameState, this`scale
      ensures Valid()
      ensures key == "Escape" ==>
        gameState == Toggled(old(gameState)) && grid == old(grid) && scale == old(scale)
      ensures key == "Enter" && old(gameState) == Menu ==>
        && Started(random) && fresh(grid.value) && scale == old(scale)
        && forall t :: t in grid.value.TileSet() ==> fresh(t) && !t.selected
      ensures key == "Enter" && old(gameState) == Playing ==>
        gameState == old(gameState) && grid == old(grid) && scale == old(scale)
      ensures key == "+" ==>
        scale == Clamp(old(scale) * ZoomInFactor) && gameState == old(gameState) && grid == old(grid)
      ensures key == "-" ==>
        scale == Clamp(old(scale) * ZoomOutFactor) && gameState == old(gameState) && grid == old(grid)
      ensures key != "Escape" && key != "Enter" && key != "+" && key != "-" ==>
        gameState == old(gameState) && grid == old(grid) && scale == old(scale)
    {
      if key == "Escape" {
        ToggleMenu();
      }
      if key == "Enter" && gameState == Menu {
        InitGame(random);
      }
      if key == "+" {
        Zoom(ZoomInFactor);
      }
      if key == "-" {
        Zoom(ZoomOutFactor);
      }
    }
  }

  /** Escape in the start menu enters play without a grid; the next click
      then faults, whatever point it is at. */
  method EscapeBeforeStartThenClick(sx: real, sy: real, random: nat -> real) returns (fault: bool)
    ensures fault
  {
    var session := new Session();
    session.KeyDown("Escape", random);
    fault := session.Click(sx, sy);
  }

  /** Enter starts a game; a click at screen point (16, 16) at scale 1 and
      camera (0, 0) then selects tile (0, 0). */
  method StartThenClickCorner(random: nat -> real) returns (picked: Option<Tile>)
    ensures picked.Some? && picked.value.x == 0 && picked.value.y == 0 && picked.value.selected
  {
    var session := new Session();
    session.KeyDown("Enter", random);
    var fault := session.Click(16.0, 16.0);
    picked := session.selectedTile;
  }
}
