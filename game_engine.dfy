/**
 * The `PathfindingGameEngine` glue: it owns the tile system, the player and
 * the pathfinding system, turns a click into a path query, and hands the
 * resulting path to the player's action buffer. The engine, camera, loader
 * and rendering are not modelled; the UI callbacks are recorded, in order,
 * in `callbacks`.
 */
module GameEngine {
  import opened Wrappers
  import opened Tiles
  import opened Pathfinding
  import opened Players

  /** The algorithm a query uses. */
  datatype Algorithm = AStar | Dijkstra

  /** The UI callbacks: `onPathfindingComplete(duration, pathLength)` and `onPathfindingError(message)`. */
  datatype GameEvent = PathfindingComplete(duration: real, pathLength: nat) | PathfindingError(message: string)

  /** What the pointer-down handler does with a click. */
  datatype ClickOutcome = Ignore | RejectTree | Route(start: int, target: int)

  const UnreachableTile := "UNREACHABLE TILE"
  const TreeIgnored := "CLICKING A TREE WILL BE IGNORED"

  class PathfindingGameEngine {
    var tileSystem: TileSystem?
    var player: Player?
    var pathfinding: PathfindingSystem?
    /** The UI callbacks fired so far, oldest first. */
    var callbacks: seq<GameEvent>

    ghost predicate Valid()
      reads this, player
    {
      player != null ==> player.Valid()
    }

    /** Before `start` runs, none of the game systems exists. */
    constructor ()
      ensures Valid()
      ensures tileSystem == null && player == null && pathfinding == null && callbacks == []
    {
      tileSystem := null;
      player := null;
      pathfinding := null;
      callbacks := [];
    }

    /**
     * `start`, after the engine has loaded: the tile system, then the
     * player, then the pathfinding system are created.
     */
    method Start(loaded: ((int, int)) -> bool, plugin: Plugin)
      modifies this
      ensures Valid()
      ensures tileSystem != null && fresh(tileSystem) && fresh(tileSystem.solid)
      ensures tileSystem.solid.Length == Rows * Columns
      ensures forall k :: 0 <= k < tileSystem.solid.Length ==> tileSystem.solid[k] == MarkedSolid(TileTable, k, loaded)
      ensures player != null && fresh(player) && player.State() == Body([], Idle, None, Pixel(8, 8), [])
      ensures pathfinding != null && fresh(pathfinding)
      ensures pathfinding.plugin == plugin && pathfinding.graphTileMap == PathfindingGrid
      ensures pathfinding.dijkstraGraph == Built(PathfindingGrid, false)
      ensures callbacks == old(callbacks)
    {
      tileSystem := new TileSystem(loaded);
      player := new Player();
      pathfinding := new PathfindingSystem(plugin);
    }

    /**
     * `findAndExecutePath`. Without a pathfinding system or a player it
     * does nothing. Dijkstra first rebuilds its graph with the diagonal
     * flag; A* takes the flag per call and leaves that graph alone. An
     * empty path reports "UNREACHABLE TILE" and leaves the buffer as it
     * was; any other path replaces the whole buffer and reports the
     * duration and the new buffer's length.
     */
    method FindAndExecutePath(startIndex: int, targetIndex: int, algorithm: Algorithm, allowDiagonals: bool)
      requires Valid()
      modifies this, player, pathfinding
      ensures Valid()
      ensures tileSystem == old(tileSystem) && player == old(player) && pathfinding == old(pathfinding)
      ensures pathfinding == null || player == null ==>
        && callbacks == old(callbacks)
        && (player != null ==> unchanged(player))
        && (pathfinding != null ==> unchanged(pathfinding))
      ensures pathfinding != null && player != null ==>
        && (algorithm == Dijkstra ==> pathfinding.dijkstraGraph == Built(pathfinding.graphTileMap, allowDiagonals))
        && (algorithm == AStar ==> pathfinding.dijkstraGraph == old(pathfinding.dijkstraGraph))
        && var result :=
             if algorithm == Dijkstra then pathfinding.FindPathDijkstra(startIndex, targetIndex)
             else pathfinding.FindPathAStar(startIndex, targetIndex, allowDiagonals);
           && (result.path == [] ==>
                 callbacks == old(callbacks) + [PathfindingError(UnreachableTile)] && player.buffer == old(player.buffer))
           && (result.path != [] ==>
                 callbacks == old(callbacks) + [PathfindingComplete(result.duration, |player.buffer|)] &&
                 player.buffer == result.path)
      ensures player != null ==>
        player.status == old(player.status) && player.inFlight == old(player.inFlight) &&
        player.pos == old(player.pos) && player.events == old(player.events)
    {
      if pathfinding == null || player == null {
        return;
      }
      var result: PathResult;
      if algorithm == Dijkstra {
        pathfinding.UpdateDiagonalSettings(allowDiagonals);
        result := pathfinding.FindPathDijkstra(startIndex, targetIndex);
      } else {
        result := pathfinding.FindPathAStar(startIndex, targetIndex, allowDiagonals);
      }
      if |result.path| == 0 {
        callbacks := callbacks + [PathfindingError(UnreachableTile)];
        return;
      }
      player.ClearActionBuffer();
      player.buffer := result.path;
      callbacks := callbacks + [PathfindingComplete(result.duration, |result.path|)];
    }

    /**
     * The decision ladder of the pointer-down handler, read off the current
     * state. It ignores the click while any system is missing, when the
     * event has no world position, while the player is moving, or when no
     * tile lies under the pointer. A tile that is not a valid target is
     * rejected; a click on the player's own tile is ignored; any other click
     * searches from the player's tile to the clicked one.
     */
    function ClickDecision(hasWorldPos: bool, clicked: Option<Coord>): (outcome: ClickOutcome)
      reads this, player
      ensures outcome.Route? ==>
        && clicked.Some? && outcome.target == IndexByCoords(clicked.value.x, clicked.value.y)
        && PathfindingSystem.IsValidTarget(outcome.target) && outcome.start != outcome.target
      ensures outcome.RejectTree? ==>
        clicked.Some? && !PathfindingSystem.IsValidTarget(IndexByCoords(clicked.value.x, clicked.value.y))
      ensures outcome.Route? ==> player != null && outcome.start == player.CurrentTileIndex()
      ensures player != null && player.IsMoving() ==> outcome.Ignore?
      ensures !outcome.Ignore? ==> hasWorldPos && tileSystem != null && player != null && pathfinding != null
      ensures tileSystem != null && player != null && pathfinding != null && hasWorldPos && !player.IsMoving() && clicked.Some? ==>
        var target := IndexByCoords(clicked.value.x, clicked.value.y);
        && (!PathfindingSystem.IsValidTarget(target) ==> outcome == RejectTree)
        && (PathfindingSystem.IsValidTarget(target) && target == player.CurrentTileIndex() ==> outcome == Ignore)
        && (PathfindingSystem.IsValidTarget(target) && target != player.CurrentTileIndex() ==>
              outcome == Route(player.CurrentTileIndex(), target))
    {
      if tileSystem == null || player == null || pathfinding == null || !hasWorldPos || player.IsMoving() || clicked.None? then
        Ignore
      else
        var targetIndex := clicked.value.x + clicked.value.y * 10;
        if !PathfindingSystem.IsValidTarget(targetIndex) then RejectTree
        else if player.CurrentTileIndex() == targetIndex then Ignore
        else Route(player.CurrentTileIndex(), targetIndex)
    }

    /**
     * The pointer-down handler. An ignored click changes nothing; a
     * rejected one reports the tree message and changes nothing else; a
     * search first reports a zero completion (to refresh the target
     * display), then runs `findAndExecutePath` with its defaults, A* and no
     * diagonals.
     */
    method OnPointerDown(hasWorldPos: bool, clicked: Option<Coord>)
      requires Valid()
      modifies this, player, pathfinding
      ensures Valid()
      ensures tileSystem == old(tileSystem) && player == old(player) && pathfinding == old(pathfinding)
      ensures old(ClickDecision(hasWorldPos, clicked)).Ignore? ==>
        && callbacks == old(callbacks)
        && (player != null ==> unchanged(player))
        && (pathfinding != null ==> unchanged(pathfinding))
      ensures old(ClickDecision(hasWorldPos, clicked)).RejectTree? ==>
        && callbacks == old(callbacks) + [PathfindingError(TreeIgnored)]
        && player != null && unchanged(player)
        && pathfinding != null && unchanged(pathfinding)
      ensures old(ClickDecision(hasWorldPos, clicked)).Route? ==>
        var outcome := old(ClickDecision(hasWorldPos, clicked));
        var result := pathfinding.FindPathAStar(outcome.start, outcome.target, false);
        && player != null && pathfinding != null
        && pathfinding.dijkstraGraph == old(pathfinding.dijkstraGraph)
        && player.status == old(player.status) && player.pos == old(player.pos)
        && player.inFlight == old(player.inFlight) && player.events == old(player.events)
        && (result.path == [] ==>
              && callbacks == old(callbacks) + [PathfindingComplete(0.0, 0), PathfindingError(UnreachableTile)]
              && player.buffer == old(player.buffer))
        && (result.path != [] ==>
              && callbacks == old(callbacks) + [PathfindingComplete(0.0, 0), PathfindingComplete(result.duration, |result.path|)]
              && player.buffer == result.path)
    {
      ghost var outcome := ClickDecision(hasWorldPos, clicked);
      if tileSystem == null || player == null || pathfinding == null {
        return;
      }
      if !hasWorldPos {
        return;
      }
      if player.IsMoving() {
        return;
      }
      if clicked.None? {
        return;
      }
      var targetIndex := clicked.value.x + clicked.value.y * 10;
      if !PathfindingSystem.IsValidTarget(targetIndex) {
        assert outcome == RejectTree;
        callbacks := callbacks + [PathfindingError(TreeIgnored)];
        return;
      }
      var currentIndex := player.CurrentTileIndex();
      if currentIndex == targetIndex {
        assert outcome == Ignore;
        return;
      }
      assert outcome == Route(currentIndex, targetIndex);
      callbacks := callbacks + [PathfindingComplete(0.0, 0)];
      FindAndExecutePath(currentIndex, targetIndex, AStar, false);
    }
  }
}
