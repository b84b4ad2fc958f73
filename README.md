# Tile-map prototype: generation, hit-testing, drawing and session state

This project models the core of a browser real-time-strategy prototype in Dafny and proves properties of that model.

- `grid.dfy`, module `MapGrid`, models `src/game/grid.js`. It covers the `Tile` record and the `Grid` constructor, which generates the map as a circular island: water by default, grass inside a jittered radius, and gold on 2% of the grass. It also covers `getTileAt`, which turns a world pixel point into a tile, and `draw`, which emits one filled and one outlined rectangle per tile.
- `session.dfy`, module `GameSession`, models the module-level state of `src/main.js`: `gameState`, `scale`, `cameraX`/`cameraY`, `grid` and `selectedTile`. It also models the handlers that change that state: `initGame`, `toggleMenu`, `zoom`, the click handler and the keydown dispatch.

Modelling choices:

- **Objects.** `Tile` and `Grid` are classes, and so is `Session`, the module-level variables of `main.js`. A tile's coordinates and type are `const` because nothing writes them after construction. `selected` is its one mutable field. The grid's dimensions and its column-major `tiles` table are `const` because the grid is never resized.
- **Randomness.** `Math.random` is an oracle `random: nat -> real`: `random(k)` is the value the (k+1)-th call returns. Each tile's island test takes one number. Only a tile that passes the test takes a second number for the gold roll, because `type === 'grass' && Math.random() < 0.02` short-circuits. So water tiles take one number and island tiles take two. The specification function `Layout` gives the types that generation produces, and the constructor is proved to build exactly those types.
- **Real numbers.** Numbers are mathematical reals. IEEE rounding is not modelled. `Math.sqrt` is avoided: the island test compares squared distance with the squared threshold when the threshold is positive, and is false otherwise. `IslandTestIsDistanceTest` proves this equals `dist < threshold` for any non-negative `dist` whose square is the squared distance.
- **Undefined grid.** The grid starts out undefined. Pressing Escape in the initial menu enters play with no grid. A click in that state calls `getTileAt` on `undefined`, which throws a `TypeError` before any state changes. `Session.Click` returns that case as `fault == true`. `EscapeBeforeStartThenClick` shows the fault can be reached.
- **Zero tile size.** With a tile size of 0, JavaScript divides to NaN or an infinity, the bounds check fails, and `getTileAt` returns `null`. `Grid.TileAt` models this case explicitly.
- **Restart keeps the selection.** `initGame` does not clear `selectedTile`. After a restart, the selected tile belongs to the previous grid and keeps `selected == true`. The session invariant therefore ranges over the current grid's tiles plus the selected tile: the selected tile is the only one of them whose flag is set.

Some behaviour of the code that the model keeps as written:

- `draw` paints water `#aa0`: a water tile falls through to the last branch of the fill-colour conditional, the one commented `// gold` (src/game/grid.js:53-60), so water and gold share a colour.
- `zoom` clamps the scale to the fixed range [0.2, 3] (src/main.js:48).
- Nothing writes `cameraX` or `cameraY` after their initialisation (src/main.js:17-18), so the camera stays at (0, 0).
- `initGame` resets neither the zoom nor the camera (src/main.js:34-37).

Members reached only through the rows below:

- `MapGrid.Classify` models the body of the constructor's inner loop (src/game/grid.js:26-40): the island test, the short-circuiting gold roll and the type it leaves.
- `GameSession.TileSize` models `getTileSize` (src/main.js:29-31), which returns the base tile size whatever the zoom.
- `GameSession.ScreenToWorld` models the click handler's conversion `(clientX - rect.left) / scale + cameraX` (src/main.js:91-92), with the canvas-relative point as its input.
- `GameSession.Pick` models the lookup `grid.getTileAt(px, py)` at that converted point (src/main.js:91-94).

## Model

| member | source | states |
|---|---|---|
| `MapGrid.Tile.constructor` | src/game/grid.js:1-8 | a tile has the given coordinates and type (default `Plain`) and starts unselected |
| `MapGrid.Grid.constructor` | src/game/grid.js:11-43 | the grid keeps its dimensions and tile size; `tiles` has `cols` columns of `rows` tiles, `tiles[x][y]` has coordinates (x, y), its type is `Layout(cols, rows, random)[x][y]`, and every tile is fresh and unselected |
| `MapGrid.GenerateColumn` | src/game/grid.js:24-41 | one column: `rows` fresh, unselected tiles with coordinates (x, y); their types and the random numbers consumed are those `ColumnTypes` specifies |
| `MapGrid.ColumnTypes` | src/game/grid.js:24-39 | a column of n tiles has n types and consumes between n and 2n random numbers |
| `MapGrid.Columns` | src/game/grid.js:22-42 | m generated columns, each with `rows` types, consuming between m·rows and 2·m·rows random numbers |
| `MapGrid.Layout` | src/game/grid.js:22-42 | the generated table has `cols` columns of `rows` types (none when a dimension is not positive) |
| `MapGrid.LayoutAt` | src/game/grid.js:22-40 | every tile is classified by the same rule, using the random numbers starting at the index the earlier tiles leave, in column-major order |
| `MapGrid.RandomNumbersNotShared` | src/game/grid.js:22-36 | in column-major order the index of each tile's first random number strictly increases, and every number a tile consumes comes before the first number of any later tile, so no two tiles share a random number |
| `MapGrid.LayoutTypes` | src/game/grid.js:30-38 | a generated tile is never `Plain`; it is water exactly when the island test fails, gold exactly when the test passes and the gold roll is below 0.02, and grass otherwise |
| `MapGrid.AllWaterWhenRadiusNotPositive` | src/game/grid.js:20-31 | when `min(cols, rows)/2 - 5 <= 0`, every tile is water for any random numbers in [0, 1) |
| `MapGrid.WaterBeyondRadius` | src/game/grid.js:28-33 | a tile whose distance from the centre is at least the island radius is water, because the jitter factor is below 1 |
| `MapGrid.IslandTestIsDistanceTest` | src/game/grid.js:26-31 | the square-free island test is equivalent to `Math.sqrt(dx*dx + dy*dy) < maxRadius * (0.8 + r*0.2)` |
| `MapGrid.ThresholdBounds` | src/game/grid.js:20-31 | for a jitter in [0, 1), the jittered radius is not positive when the radius is not, and is below the radius otherwise |
| `MapGrid.Grid.TileAt` | src/game/grid.js:68-73 | the result is absent exactly when the tile size is 0 or `floor(px/ts)` is outside [0, cols) or `floor(py/ts)` is outside [0, rows); otherwise it is `tiles[floor(px/ts)][floor(py/ts)]` |
| `MapGrid.Grid.TileAtRoundTrip` | src/game/grid.js:68-72 | for in-range (x, y), a positive tile size and offsets in [0, ts), `getTileAt(x*ts + ox, y*ts + oy)` is the tile at (x, y) |
| `MapGrid.Grid.Draw` | src/game/grid.js:45-66 | draw emits 2·cols·rows commands; for tile (x, y), at position 2·(x·rows + y), it fills and then outlines (`#222`) the rectangle `((x*ts - cameraX)*scale, (y*ts - cameraY)*scale, ts*scale, ts*scale)` |
| `MapGrid.Grid.DrawColumn` | src/game/grid.js:47-64 | the inner loop of draw: the fill and outline commands for every tile of column x, in row order |
| `MapGrid.FillStyle` | src/game/grid.js:53-60 | the fill is `#888` exactly when the tile is selected; an unselected tile is `#555` if plain, `#3a7d3a` if grass, and `#aa0` if water or gold |
| `GameSession.Clamp` | src/main.js:48 | the clamped scale lies in [0.2, 3]; it equals the input when the input lies in the range, and is the nearer bound otherwise |
| `GameSession.Toggled` | src/main.js:41 | toggling always changes the state |
| `GameSession.ToggledTwice` | src/main.js:40-42 | toggling twice restores the state |
| `GameSession.ScreenToWorldUndoesDraw` | src/main.js:91-92 | the click handler's conversion `s/scale + camera` inverts draw's `(w - camera)*scale` |
| `GameSession.DrawnTileIsPicked` | src/main.js:90-94 | a click anywhere inside the rectangle that draw gives tile (x, y) looks up exactly that tile (positive scale and tile size) |
| `GameSession.Session.constructor` | src/main.js:11-18 | the initial state: no grid, no selection, menu, scale 1, camera (0, 0) |
| `GameSession.Session.AtMostOneSelected` | src/main.js:94-99 | under the session invariant, two selected reachable tiles are the same tile |
| `GameSession.Session.InitGame` | src/main.js:34-37 | initGame installs a fresh 32 × 24 grid with tile size 32, generated from the oracle, with all tiles unselected; it sets `playing` and changes nothing else |
| `GameSession.Session.ToggleMenu` | src/main.js:40-42 | playing goes to menu and menu goes to playing; only `gameState` changes |
| `GameSession.Session.Zoom` | src/main.js:45-50 | the scale becomes `Clamp(oldScale * factor)`, so it stays within [0.2, 3]; only `scale` changes |
| `GameSession.Session.Click` | src/main.js:87-100 | outside play, nothing changes; in play with no grid, the handler faults and nothing changes; a miss changes nothing; a hit on the tile at `(sx/scale + cameraX, sy/scale + cameraY)` makes it `selectedTile`, sets its flag, and clears every other reachable flag (clicking the same tile twice leaves it selected); the invariant is preserved |
| `GameSession.Session.KeyDown` | src/main.js:103-108 | Escape toggles the menu; Enter starts a game only from the menu; `+` and `-` zoom by 1.1 and 0.9; any other key changes nothing; the camera and the selection never change |
| `GameSession.EscapeBeforeStartThenClick` | src/main.js:94 | after Escape in the initial menu, any click faults because the grid is undefined |
| `GameSession.StartThenClickCorner` | src/main.js:87-99 | after Enter, a click at screen (16, 16) with scale 1 and camera (0, 0) selects tile (0, 0) |

## Left out

- Canvas and DOM setup, `resizeCanvas`, `getBoundingClientRect` and the registration of event listeners are platform glue. The click handler takes canvas-relative screen coordinates.
- `requestAnimationFrame`, `gameLoop`, the empty `update`, `render` and the menu text of `drawMenu` are frame scheduling and UI.
- The 2D context is not modelled. `draw`'s `fillStyle`/`fillRect` and `strokeStyle`/`strokeRect` pairs are emitted as `FillRect` and `StrokeRect` commands.
- `Math.random` is an oracle. Its uniform distribution is not modelled, so "probability 0.02" appears only as the comparison `roll < 0.02`. The lemmas that need Math.random's range require each value to lie in [0, 1).
- IEEE floating point is not modelled: rounding, NaN and infinities are left out, except for a zero tile size in `getTileAt`.
- Grid dimensions are integers. A negative dimension behaves like 0, as the loops do.
- Camera panning, camera clamping, zoom-to-cursor and a fit-to-screen minimum scale are not in the code, and are not modelled.
- A thrown `TypeError` is modelled only as the `fault` result of `Session.Click`. Error reporting by the browser is not modelled.
- `zoom`'s unused local `oldScale` is not modelled.
