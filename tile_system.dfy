/**
 * The fixed 10x10 world of the pathfinding demo: the tile table, the
 * conversions between a flat tile index and grid coordinates, the
 * walkability test, and the pass that marks tree tiles of the engine's
 * tile map as solid.
 */
module Tiles {

  /** The two kinds of tile in the table (the `Grass` and `Tree` classes). */
  datatype TileKind = Grass | Tree {

    /** The `collider` field: trees block movement. */
    function Collider(): bool {
      Tree?
    }

    /** Column and row of the kind's sprite in the sprite sheet. */
    function Sprite(): (int, int) {
      if Grass? then (5, 0) else (13, 9)
    }
  }

  const Rows: nat := 10
  const Columns: nat := 10

  /** The `tiles` table, one line per map row: entry `x + 10 * y` is the tile at column x, row y. */
  const TileTable: seq<TileKind> :=
    [Grass, Grass, Grass, Tree, Grass, Tree, Tree, Grass, Tree, Grass] +
    [Grass, Tree, Grass, Grass, Grass, Grass, Grass, Tree, Grass, Tree] +
    [Grass, Grass, Grass, Grass, Tree, Grass, Grass, Grass, Grass, Tree] +
    [Grass, Grass, Grass, Tree, Grass, Tree, Tree, Grass, Grass, Grass] +
    [Grass, Grass, Grass, Grass, Grass, Grass, Grass, Grass, Grass, Grass] +
    [Grass, Tree, Grass, Grass, Grass, Grass, Grass, Grass, Grass, Grass] +
    [Grass, Grass, Grass, Grass, Grass, Grass, Grass, Tree, Grass, Tree] +
    [Grass, Grass, Tree, Grass, Tree, Grass, Grass, Grass, Grass, Grass] +
    [Grass, Grass, Grass, Grass, Grass, Grass, Grass, Grass, Tree, Grass] +
    [Tree, Tree, Grass, Grass, Grass, Tree, Grass, Grass, Grass, Grass]

  /** Grid coordinates of a tile. */
  datatype Coord = Coord(x: int, y: int)

  /** JavaScript's `a % b` for a positive divisor: truncating, the result takes the sign of `a`. */
  function JsRem(a: int, b: int): (r: int)
    requires b > 0
    ensures a >= 0 ==> 0 <= r < b && a == (a / b) * b + r
    ensures a < 0 ==> -b < r <= 0
  {
    if a >= 0 then a % b else -((-a) % b)
  }

  /** The table has one entry per cell of the 10-row, 10-column tile map. */
  lemma TableMatchesMap()
    ensures |TileTable| == Rows * Columns
  {
  }

  /**
   * `getTileByIndex`: x is `index % 10` (JavaScript remainder), y is
   * `Math.floor(index / 10)`. For a non-negative index the coordinates
   * lie in column range [0, 10) and flatten back to the index; for an
   * index of the table they lie inside the 10x10 map.
   */
  function TileByIndex(index: int): (c: Coord)
    ensures index >= 0 ==> 0 <= c.x < Columns && 0 <= c.y && c.x + c.y * Columns == index
    ensures 0 <= index < |TileTable| ==> 0 <= c.y < Rows
  {
    Coord(JsRem(index, 10), index / 10)
  }

  /**
   * `getIndexByCoords`: row-major flattening. On the 10x10 map it is a
   * table index and `TileByIndex` takes it back to the same coordinates.
   */
  function IndexByCoords(x: int, y: int): (index: int)
    ensures 0 <= x < Columns && 0 <= y < Rows ==>
      0 <= index < |TileTable| && TileByIndex(index) == Coord(x, y)
  {
    x + y * 10
  }

  /** Both conversions are inverse to each other on the whole map. */
  lemma IndexRoundTrip(index: int, x: int, y: int)
    requires 0 <= index < |TileTable|
    requires 0 <= x < Columns && 0 <= y < Rows
    ensures IndexByCoords(TileByIndex(index).x, TileByIndex(index).y) == index
    ensures TileByIndex(IndexByCoords(x, y)) == Coord(x, y)
  {
  }

  /**
   * `isTileWalkable` as written: `!(tiles[index] instanceof Tree)`.
   * Inside the table it is false exactly on colliders; outside the table
   * `tiles[index]` is `undefined`, which is not a Tree, so every
   * out-of-range index is reported walkable.
   */
  function IsTileWalkable(index: int): (walkable: bool)
    ensures 0 <= index < |TileTable| ==> (walkable <==> !TileTable[index].Collider())
    ensures !(0 <= index < |TileTable|) ==> walkable
  {
    !(0 <= index < |TileTable| && TileTable[index] == Tree)
  }

  /**
   * Walkability as the rest of the system uses it: a tile of the table
   * that is not a collider. It agrees with `IsTileWalkable` inside the
   * table and rejects every index outside it.
   */
  function IsWalkable(index: int): (walkable: bool)
    ensures walkable ==> 0 <= index < |TileTable|
    ensures 0 <= index < |TileTable| ==> walkable == IsTileWalkable(index)
  {
    0 <= index < |TileTable| && !TileTable[index].Collider()
  }

  /** Index 100 (just past the table) and -1 are walkable for `IsTileWalkable`, not for `IsWalkable`. */
  lemma OutOfRangeReportedWalkable()
    ensures IsTileWalkable(|TileTable|) && !IsWalkable(|TileTable|)
    ensures IsTileWalkable(-1) && !IsWalkable(-1)
  {
  }

  /**
   * Whether `initializeTiles` marks map tile k solid, reading the tile data
   * from `tiles`: both sprite lookups (the base sprite, taken from entry 0,
   * and the tile's own sprite) return a sprite, and the tile data is a Tree.
   * `loaded` says whether the sprite sheet yields a sprite at a column and
   * row without throwing.
   */
  predicate MarkedSolid(tiles: seq<TileKind>, k: nat, loaded: ((int, int)) -> bool)
    requires k < |tiles|
  {
    loaded(tiles[0].Sprite()) && loaded(tiles[k].Sprite()) && tiles[k] == Tree
  }

  /** Only trees are ever marked solid, and when the sprites load every tree is. */
  lemma SolidMeansTree(k: nat, loaded: ((int, int)) -> bool)
    requires k < |TileTable|
    ensures MarkedSolid(TileTable, k, loaded) ==> TileTable[k].Collider() && !IsWalkable(k)
    ensures loaded(Grass.Sprite()) && loaded(Tree.Sprite()) ==> (MarkedSolid(TileTable, k, loaded) <==> !IsWalkable(k))
  {
  }

  /** The `TileSystem`: owns the engine tile map, of which the model keeps the `solid` flags. */
  class TileSystem {
    /** `solid` of each map tile, in the map's row-major order. */
    const solid: array<bool>

    /** Builds the 10x10 map (all tiles start non-solid) and runs `initializeTiles` over the `tiles` table. */
    constructor (loaded: ((int, int)) -> bool)
      ensures fresh(solid) && solid.Length == Rows * Columns
      ensures forall k :: 0 <= k < solid.Length ==> solid[k] == MarkedSolid(TileTable, k, loaded)
    {
      solid := new bool[Rows * Columns](_ => false);
      new;
      InitializeTiles(TileTable, loaded);
    }

    /**
     * `initializeTiles`: walks the map tiles with a running index and marks
     * a tile solid when its data is a Tree and both sprites were found;
     * a failed lookup leaves the tile as it was.
     */
    method InitializeTiles(tiles: seq<TileKind>, loaded: ((int, int)) -> bool)
      requires solid.Length == |tiles|
      modifies solid
      ensures forall k :: 0 <= k < solid.Length ==> solid[k] == (old(solid[k]) || MarkedSolid(tiles, k, loaded))
    {
      var tileIndex := 0;
      while tileIndex < solid.Length
        invariant 0 <= tileIndex <= solid.Length
        invariant forall k :: 0 <= k < tileIndex ==> solid[k] == (old(solid[k]) || MarkedSolid(tiles, k, loaded))
        invariant forall k :: tileIndex <= k < solid.Length ==> solid[k] == old(solid[k])
      {
        var tileData := tiles[tileIndex];
        if loaded(tiles[0].Sprite()) && loaded(tileData.Sprite()) {
          if tileData == Tree {
            solid[tileIndex] := true;
          }
        }
        tileIndex := tileIndex + 1;
      }
    }
  }
}
