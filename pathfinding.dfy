/**
 * The `PathfindingSystem`: the wrapper around the grid-search plugin.
 * The searches themselves (A* and Dijkstra) belong to the plugin and are
 * not modelled; they enter as the uninterpreted function values of a
 * `Plugin`. What is modelled is the wrapper's own logic: target
 * validation, the missing-endpoint guard, the shaping of the node lists
 * the plugin returns, and the Dijkstra graph that is rebuilt when the
 * diagonal setting changes.
 */
module Pathfinding {
  import opened Tiles

  /** A node of a plugin graph; only its numeric id is used. */
  datatype Node = Node(id: nat)

  /** What one plugin search hands back: the node list and the plugin's `duration` (opaque here). */
  datatype Search = Search(nodes: seq<Node>, duration: real)

  /** What the wrapper returns to its callers: tile indices and the duration. */
  datatype PathResult = PathResult(path: seq<nat>, duration: real)

  /** The `GraphTileMap` handed to the Dijkstra graph. */
  datatype GraphTileMap = GraphTileMap(name: string, tiles: seq<TileKind>, rows: nat, cols: nat)

  /** The state of the plugin's Dijkstra graph: cleared, or built from one tile map with a diagonal setting. */
  datatype DijkstraGraph = Empty | Built(tileMap: GraphTileMap, diagonals: bool)

  /**
   * The plugin, as function values the model does not look into:
   * node lookup and search for the A* graph (built from the engine's tile
   * map), node lookup and shortest path for a given Dijkstra graph state.
   */
  datatype Plugin = Plugin(
    aStarHasNode: int -> bool,
    aStar: (int, int, bool) -> Search,
    dijkstraHasNode: (DijkstraGraph, int) -> bool,
    dijkstraShortestPath: (DijkstraGraph, int, int) -> Search)

  /** The empty answer of both searches when an endpoint node is missing. */
  const NoPath := PathResult([], 0.0)

  /** `nodes.map(node => Number.parseInt(node.id.toString()))`: the ids, in order. */
  function NodeIds(nodes: seq<Node>): (ids: seq<nat>)
    ensures |ids| == |nodes|
    ensures forall k :: 0 <= k < |ids| ==> ids[k] == nodes[k].id
  {
    if nodes == [] then [] else [nodes[0].id] + NodeIds(nodes[1..])
  }

  /**
   * `path.slice(1)` followed by the id conversion: the start node is
   * dropped, and an empty path stays empty.
   */
  function IdsAfterStart(nodes: seq<Node>): (ids: seq<nat>)
    ensures |ids| == if nodes == [] then 0 else |nodes| - 1
    ensures forall k :: 0 <= k < |ids| ==> ids[k] == nodes[k + 1].id
  {
    if nodes == [] then [] else NodeIds(nodes[1..])
  }

  /** The map the constructor hands to the Dijkstra graph: a copy of the tile table, 10 by 10. */
  const PathfindingGrid := GraphTileMap("pathfindingGrid", TileTable, Rows, Columns)

  class PathfindingSystem {
    /** The plugin objects, fixed at construction. */
    const plugin: Plugin
    /** `graphTileMap`: the map every Dijkstra graph is built from. */
    const graphTileMap: GraphTileMap
    /** `dijkstraGraph`: the plugin's Dijkstra graph. */
    var dijkstraGraph: DijkstraGraph

    /** A new system builds the Dijkstra graph from the tile table with diagonals off. */
    constructor (plugin: Plugin)
      ensures this.plugin == plugin
      ensures graphTileMap == PathfindingGrid
      ensures dijkstraGraph == Built(PathfindingGrid, false)
    {
      this.plugin := plugin;
      graphTileMap := PathfindingGrid;
      dijkstraGraph := Built(PathfindingGrid, false);
    }

    /**
     * `findPathAStar`: when the plugin has no node for an endpoint the
     * answer is the empty path with duration 0; otherwise it is the plugin's
     * path, element by element the ids of its nodes, with its duration.
     */
    function FindPathAStar(startIndex: int, targetIndex: int, allowDiagonals: bool): (r: PathResult)
      ensures !plugin.aStarHasNode(startIndex) || !plugin.aStarHasNode(targetIndex) ==> r == NoPath
      ensures plugin.aStarHasNode(startIndex) && plugin.aStarHasNode(targetIndex) ==>
        var search := plugin.aStar(startIndex, targetIndex, allowDiagonals);
        && r.duration == search.duration
        && |r.path| == |search.nodes|
        && forall k :: 0 <= k < |r.path| ==> r.path[k] == search.nodes[k].id
    {
      if !plugin.aStarHasNode(startIndex) || !plugin.aStarHasNode(targetIndex) then
        NoPath
      else
        var search := plugin.aStar(startIndex, targetIndex, allowDiagonals);
        PathResult(NodeIds(search.nodes), search.duration)
    }

    /**
     * `findPathDijkstra` over the current graph: the same missing-endpoint
     * guard; otherwise the plugin's path without its first (start) node.
     */
    function FindPathDijkstra(startIndex: int, targetIndex: int): (r: PathResult)
      reads this
      ensures !plugin.dijkstraHasNode(dijkstraGraph, startIndex) || !plugin.dijkstraHasNode(dijkstraGraph, targetIndex) ==>
        r == NoPath
      ensures plugin.dijkstraHasNode(dijkstraGraph, startIndex) && plugin.dijkstraHasNode(dijkstraGraph, targetIndex) ==>
        var search := plugin.dijkstraShortestPath(dijkstraGraph, startIndex, targetIndex);
        && r.duration == search.duration
        && |r.path| == (if search.nodes == [] then 0 else |search.nodes| - 1)
        && forall k :: 0 <= k < |r.path| ==> r.path[k] == search.nodes[k + 1].id
    {
      if !plugin.dijkstraHasNode(dijkstraGraph, startIndex) || !plugin.dijkstraHasNode(dijkstraGraph, targetIndex) then
        NoPath
      else
        var search := plugin.dijkstraShortestPath(dijkstraGraph, startIndex, targetIndex);
        PathResult(IdsAfterStart(search.nodes), search.duration)
    }

    /**
     * `updateDiagonalSettings`: reset the Dijkstra graph, then add the same
     * tile map again with the new diagonal flag. The previous setting
     * leaves no trace.
     */
    method UpdateDiagonalSettings(allowDiagonals: bool)
      modifies this
      ensures dijkstraGraph == Built(graphTileMap, allowDiagonals)
    {
      dijkstraGraph := Empty;
      dijkstraGraph := Built(graphTileMap, allowDiagonals);
    }

    /**
     * `isValidTarget`: an index of the tile table whose tile is not a
     * collider. Every index outside the table is rejected, and on the table
     * it is exactly walkability.
     */
    static function IsValidTarget(tileIndex: int): (valid: bool)
      ensures valid ==> 0 <= tileIndex < Rows * Columns
      ensures valid == IsWalkable(tileIndex)
      ensures 0 <= tileIndex < |TileTable| ==> valid == IsTileWalkable(tileIndex)
    {
      tileIndex >= 0 && tileIndex < |TileTable| && !TileTable[tileIndex].Collider()
    }
  }

  /**
   * On the repository's map, tile 0 (the player's start) and tile 9 are
   * valid targets while tile 3, a tree on the same row, is not.
   */
  lemma FirstRowTargets()
    ensures PathfindingSystem.IsValidTarget(0) && PathfindingSystem.IsValidTarget(9)
    ensures !PathfindingSystem.IsValidTarget(3)
  {
  }
}
