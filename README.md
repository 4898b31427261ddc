# Grid pathfinding demo: tile world, path queries and player movement

This project models the logic of a browser tile game in which a player
token walks a fixed 10×10 map of grass and trees. The user picks a target
tile. A grid-search plugin computes an A* or Dijkstra route, and the player
walks it one tile at a time. The search algorithms belong to an external
plugin, so they are not modelled. They enter the model as uninterpreted
function values (`Pathfinding.Plugin`). The model covers the code around
them:

- `Tiles` (lib/tile-system.ts): the tile table, the index/coordinate
  conversions, the walkability test, and the pass that marks tree tiles
  of the engine tile map as solid.
- `Pathfinding` (lib/pathfinding.ts): target validation, the
  missing-endpoint guard, how A* and Dijkstra node lists are turned into
  tile indices, and the Dijkstra graph that is rebuilt when the diagonal
  flag changes.
- `Players` (lib/player.ts): the player's idle/moving state machine over a
  FIFO buffer of tile indices, the tile-centre pixel arithmetic, and a
  proof that draining the buffer visits its tiles in order.
- `GameEngine` (lib/game-engine.ts): `findAndExecutePath` and the
  pointer-down decision ladder. UI callbacks are recorded in order in a
  `callbacks` sequence.
- `SimpleEngine` (lib/simple-game-engine.ts): the canvas grid game's tile
  generation, its bounds-checked target test and its move request.
  Random draws are a parameter.

Three behaviours of the code are worth stating up front; the model
follows the code in each:

- `isTileWalkable` answers "walkable" for every index outside the tile
  table (see Findings), while `isValidTarget` rejects such indices.
- Only the Dijkstra wrapper drops the start node from the plugin's path.
  The A* wrapper keeps the node list exactly as the plugin returns it.
- The pathfinding wrapper does not special-case a query whose start equals
  its target; that case is left to the plugin. The callers avoid it: the
  click handler ignores a click on the player's own tile, and the random
  target button draws again until the target differs from the player's
  tile (components/pathfinding-game.tsx:153-159, not part of this model).

## Model

| member | source | states |
|---|---|---|
| `Tiles.JsRem` | lib/tile-system.ts:169 | JavaScript `%`: for a non-negative dividend it agrees with Euclidean division; for a negative one the remainder is in (-b, 0] |
| `Tiles.TableMatchesMap` | lib/tile-system.ts:16-129 | the tile table has exactly rows × columns = 100 entries, one per cell of the 10×10 tile map |
| `Tiles.TileByIndex` | lib/tile-system.ts:168-172 | for a non-negative index, x is in [0, 10) and x + 10·y gives the index back; for a table index, y is in [0, 10) too |
| `Tiles.IndexByCoords` | lib/tile-system.ts:174-176 | on the 10×10 map the flat index is a table index, and `TileByIndex` maps it back to the same (x, y) |
| `Tiles.IndexRoundTrip` | lib/tile-system.ts:168-176 | index → coordinates → index and coordinates → index → coordinates are both the identity on the map |
| `Tiles.IsTileWalkable` | lib/tile-system.ts:178-180 | on the table: false exactly on colliders (trees); outside the table (negative, or ≥ 100): always true |
| `Tiles.IsWalkable` | lib/tile-system.ts:178-180 | corrected walkability: true only for table indices; on the table it equals `IsTileWalkable` |
| `Tiles.OutOfRangeReportedWalkable` | lib/tile-system.ts:178-180 | indices 100 and -1 are walkable for `IsTileWalkable` but not for `IsWalkable` |
| `Tiles.SolidMeansTree` | lib/tile-system.ts:144-152 | a tile is marked solid only if it is a tree (so not walkable); when both sprites load, solid ⇔ not walkable |
| `Tiles.TileSystem.constructor` | lib/tile-system.ts:122-132 | the map has 100 fresh tiles; tile k is solid exactly when `initializeTiles` marks it, starting from all non-solid |
| `Tiles.TileSystem.InitializeTiles` | lib/tile-system.ts:134-162 | after the pass, tile k is solid iff it was already solid or both sprite lookups succeeded and entry k is a Tree; a failed lookup leaves the tile alone |
| `Pathfinding.NodeIds` | lib/pathfinding.ts:43 | the id list has the node list's length and order: element k is node k's id |
| `Pathfinding.IdsAfterStart` | lib/pathfinding.ts:60 | `slice(1)` then ids: length max(0, n-1), element k is node k+1's id |
| `Pathfinding.PathfindingSystem.constructor` | lib/pathfinding.ts:10-25 | the Dijkstra graph is built from the 10×10 copy of the tile table with diagonals off |
| `Pathfinding.PathfindingSystem.FindPathAStar` | lib/pathfinding.ts:27-46 | a missing start or target node gives the empty path with duration 0; otherwise the plugin's path, element by element mapped to ids, with its duration |
| `Pathfinding.PathfindingSystem.FindPathDijkstra` | lib/pathfinding.ts:48-63 | same guard over the current graph; otherwise the plugin's path without its first (start) node, with its duration |
| `Pathfinding.PathfindingSystem.UpdateDiagonalSettings` | lib/pathfinding.ts:65-69 | afterwards the graph is built from the same tile map with the given flag; the previous state does not matter, so repeating the call changes nothing |
| `Pathfinding.PathfindingSystem.IsValidTarget` | lib/pathfinding.ts:71-73 | valid only inside [0, 100); equal to corrected walkability everywhere and to `isTileWalkable` on the table |
| `Pathfinding.FirstRowTargets` | lib/pathfinding.ts:71-73 | on the repository's map tiles 0 and 9 are valid targets and tile 3 (a tree between them) is not |
| `Players.TileIndexAt` | lib/player.ts:77-81 | a position inside the 160×160 pixel world, offset by the half tile, maps to a tile index in [0, 100) |
| `Players.TileCentre` | lib/player.ts:59-65 | the target pixel of `moveToTile` is a tile centre (≡ 8 mod 16 on both axes), lies in the world for i < 100, and `getCurrentTileIndex` there returns i for every non-negative i |
| `Players.PostUpdate` | lib/player.ts:47-57 | idle with a non-empty buffer: exactly the head leaves the buffer (rest in order), that tile is in flight, status becomes moving, a start is announced; otherwise nothing changes; keeps moving ⇔ move in flight |
| `Players.Completed` | lib/player.ts:71-74 | completion returns to idle, stands on the in-flight tile, reports exactly that tile, leaves the buffer alone |
| `Players.WalkEvents` | lib/player.ts:47-74 | a walk along a path sends exactly two notifications per tile |
| `Players.WalkEventsAt` | lib/player.ts:47-74 | for tile k of the path, notification 2k is a start and notification 2k + 1 is the completion of exactly that tile, so the walk reports its tiles in order |
| `Players.WalkFollowsBuffer` | lib/player.ts:47-74 | alternating post-updates and completions from idle empties the buffer, ends idle on the buffer's last tile, and reports start/complete for each buffered tile in order |
| `Players.Player.constructor` | lib/player.ts:10-30 | empty buffer, idle, position (8, 8), which is tile 0 |
| `Players.Player.OnPostUpdate` | lib/player.ts:47-57 | the new state is `PostUpdate` of the old one, and moving ⇔ a move in flight still holds |
| `Players.Player.MoveToTile` | lib/player.ts:59-75 | arms the completion for the given tile, whose centre reads back as that tile |
| `Players.Player.CompleteMove` | lib/player.ts:71-74 | reports the in-flight tile, and the new state is `Completed` of the old one |
| `Players.CentreReadsBack` | lib/player.ts:59-81 | every tile centre inside the world reads back as a tile in [0, 100) whose `moveToTile` target is that same pixel |
| `Players.Player.CurrentTileIndex` | lib/player.ts:77-81 | at a tile centre inside the world the index is in [0, 100) and its centre is the position |
| `Players.Player.IsMoving` | lib/player.ts:83-85 | on a consistent player, moving exactly while a move's completion timer is pending |
| `Players.Player.ClearActionBuffer` | lib/player.ts:87-89 | empties the buffer and touches nothing else, the status included |
| `GameEngine.PathfindingGameEngine.constructor` | lib/game-engine.ts:23-41 | no tile system, player or pathfinding system exists yet, and no callback has fired |
| `GameEngine.PathfindingGameEngine.Start` | lib/game-engine.ts:121-152 | creates the tile system with its 100 solid flags set as `initializeTiles` sets them, a player in its initial state, and a pathfinding system that keeps the copied 10×10 tile map for every later Dijkstra rebuild, with the graph built from it without diagonals |
| `GameEngine.PathfindingGameEngine.FindAndExecutePath` | lib/game-engine.ts:82-111 | nothing happens without a player and pathfinding system; Dijkstra rebuilds its graph with the flag first, A* leaves it alone; an empty result fires "UNREACHABLE TILE" and keeps the buffer; otherwise the buffer becomes exactly the path and the completion reports the new buffer's length |
| `GameEngine.PathfindingGameEngine.ClickDecision` | lib/game-engine.ts:51-79 | both directions of the ladder: a click is ignored while a system, the world position or the tile is missing or the player moves; otherwise it is rejected exactly when the clicked index is not a valid target, ignored when it is the player's tile, and otherwise searches from the player's current tile to the clicked one |
| `GameEngine.PathfindingGameEngine.OnPointerDown` | lib/game-engine.ts:51-80 | an ignored click changes nothing; a rejected one fires "CLICKING A TREE WILL BE IGNORED" and changes nothing else; a search fires the zero completion and runs A* without diagonals from the player's tile, leaving the Dijkstra graph and the player's status, position, move in flight and notifications alone |
| `SimpleEngine.RolledTile` | lib/simple-game-engine.ts:76-92 | a generated tile sits at its own coordinates; water overrides tree; walkable iff grass |
| `SimpleEngine.ValidTargetIn` | lib/simple-game-engine.ts:148-153 | false outside the bounds (first row's length, number of rows); otherwise the tile's walkability |
| `SimpleEngine.GeneratedTilesConsistent` | lib/simple-game-engine.ts:68-98 | on a generated grid every tile's x and y fields are its position, walkable iff grass, and tile (1, 1) is walkable grass |
| `SimpleEngine.GeneratedTargets` | lib/simple-game-engine.ts:68-98 | on a generated grid a click is valid iff it lies inside cols × rows on grass; (1, 1) is valid when there are at least two columns |
| `SimpleEngine.SimpleGameEngine.constructor` | lib/simple-game-engine.ts:40-59 | player at (1, 1), target (1, 1), not moving, speed 0.1; the tiles are generated |
| `SimpleEngine.SimpleGameEngine.GenerateTiles` | lib/simple-game-engine.ts:68-98 | `floor(height/tileSize)` rows of `floor(width/tileSize)` tiles, each as its draws made it, except tile (1, 1), which is forced to walkable grass |
| `SimpleEngine.SimpleGameEngine.IsValidTarget` | lib/simple-game-engine.ts:148-153 | true iff (x, y) is inside the grid and that tile is walkable |
| `SimpleEngine.SimpleGameEngine.MovePlayerTo` | lib/simple-game-engine.ts:155-163 | while moving nothing changes; otherwise the target becomes (x, y) and the player is moving, with position and speed unchanged |
| `SimpleEngine.SimpleGameEngine.OnClick` | lib/simple-game-engine.ts:100-110 | only a valid target starts a move, and only when the player is not already moving |

## Findings

| source | as written | input that shows it | evidently intended | confidence | as-written member | corrected member |
|---|---|---|---|---|---|---|
| lib/tile-system.ts:178-180 | `isTileWalkable` tests `!(tiles[index] instanceof Tree)`, so every index outside the table reads as walkable | index 100 (or -1): `tiles[100]` is undefined, so the answer is true | out-of-range tiles are not walkable, as `PathfindingSystem.isValidTarget` answers | medium, not executed (the function has no caller in the repository) | `Tiles.OutOfRangeReportedWalkable` (about `Tiles.IsTileWalkable`) | `Tiles.IsWalkable` |

## Left out

- The A* and Dijkstra searches, the plugin's node lookups, and the building and resetting of its graphs. These are plugin code. They are the uninterpreted function values of `Pathfinding.Plugin`, and the Dijkstra graph is an abstract `DijkstraGraph` value. Nothing is claimed about optimality, heuristics, tie-breaking or corner-cutting.
- Search durations are floating-point milliseconds from the plugin. They are passed through as opaque `real` values.
- Rendering and assets: the Excalibur engine, camera, loader and actors, and sprite drawing. For sprites, `initializeTiles` keeps only whether each lookup returned a sprite without throwing (the `loaded` parameter). `lib/resources.ts` is not part of this model.
- The easing animation and the 500 ms timer in `moveToTile`. Completion is an explicit `CompleteMove` call, and at completion the player stands exactly on the tile centre. A timer firing before the easing ends is not modelled. Positions are whole pixels.
- The player's notifications (`onMoveStart`, `onMoveComplete`) are logged in the player's own `events`. Their forwarding to the UI callbacks in `initializePlayer` is not modelled separately.
- `Player.onInitialize` (sprite set-up) and the constructor's fallback for missing event handlers.
- Pointer handling: the tile under the pointer (`getTileByPoint`, and the client-pixel division in the simple engine) is an input to `OnPointerDown` and `OnClick`.
- `SimpleEngine.SimpleGameEngine.constructor`: requires at least one column and two rows. With fewer rows the forced write to `tiles[1][1]` throws, and with zero columns it leaves a hole in row 1. Neither case is modelled.
- The simple engine's `updatePlayer` float interpolation, its `requestAnimationFrame` loop, `draw`, `loadImages`, `setupCanvas`, and the getters and `dispose`. These are timing, floating point and drawing.
- The getters and `dispose` of `PathfindingGameEngine`.
- Random draws in tile generation are the `roll` parameter. Random target picking in the UI is not modelled.
- The React/p5 components, the app layout and page, and the editor-environment configuration table.
- Negative indices: `TileByIndex` models JavaScript's truncating `%`, but its round-trip properties are stated only for non-negative indices. Player tile indices are plugin node ids and are typed `nat`.
